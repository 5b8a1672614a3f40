/**
 * The top-level facade: from the project URL it derives the URLs of the
 * four services once, at construction.
 */
module Client {

  /** The service URLs of one project, next to the URL and key they came from. */
  datatype Supa = Supa(url: string, key: string, restUrl: string, realtimeUrl: string,
                       authUrl: string, storageUrl: string)

  /**
   * `s.replace(pat, rep)` for a non-empty pattern: occurrences are found from
   * the left and do not overlap.
   */
  function Replace(s: string, pat: string, rep: string): string
    requires pat != []
    decreases |s|
  {
    if |s| < |pat| then s
    else if s[..|pat|] == pat then rep + Replace(s[|pat|..], pat, rep)
    else [s[0]] + Replace(s[1..], pat, rep)
  }

  /** "http" occurs in `s` at position `i`. */
  predicate HttpAt(s: string, i: int) {
    0 <= i && i + 4 <= |s| && s[i] == 'h' && s[i + 1] == 't' && s[i + 2] == 't' && s[i + 3] == 'p'
  }

  /** `"http" in s`. */
  predicate ContainsHttp(s: string) {
    exists i :: 0 <= i < |s| && HttpAt(s, i)
  }

  /** The scheme rewrite of the realtime URL. */
  function HttpToWs(s: string): string {
    Replace(s, "http", "ws")
  }

  /** The prefix test of Replace is the occurrence test at position 0. */
  lemma StartsWithHttp(s: string)
    requires |s| >= 4
    ensures s[..4] == "http" <==> HttpAt(s, 0)
  {
    if HttpAt(s, 0) {
      assert s[..4] == [s[0], s[1], s[2], s[3]];
    }
  }

  /** One step of the rewrite on a string that does not start with "http". */
  lemma HttpToWsCopies(s: string)
    requires s != [] && !HttpAt(s, 0)
    ensures HttpToWs(s) == [s[0]] + HttpToWs(s[1..])
  {
    if |s| >= 4 {
      StartsWithHttp(s);
    } else {
      assert HttpToWs(s[1..]) == s[1..];
      assert s == [s[0]] + s[1..];
    }
  }

  /** One step of the rewrite on a string that starts with "http". */
  lemma HttpToWsRewrites(s: string)
    requires HttpAt(s, 0)
    ensures HttpToWs(s) == "ws" + HttpToWs(s[4..])
  {
    StartsWithHttp(s);
  }

  /**
   * If the rewrite of `t` starts with some characters none of which is 'w',
   * those characters were copied from `t` unchanged.
   */
  lemma {:induction false} CopiedPrefix(t: string, w: string)
    ensures 'w' !in w && |w| <= |HttpToWs(t)| && HttpToWs(t)[..|w|] == w ==>
            |w| <= |t| && t[..|w|] == w
    decreases |t|
  {
    if w != [] && t != [] {
      if HttpAt(t, 0) {
        HttpToWsRewrites(t);
        assert HttpToWs(t)[0] == 'w';
      } else {
        HttpToWsCopies(t);
        CopiedPrefix(t[1..], w[1..]);
        if 'w' !in w && |w| <= |HttpToWs(t)| && HttpToWs(t)[..|w|] == w {
          assert HttpToWs(t[1..])[..|w| - 1] == w[1..];
          assert t[..|w|] == [t[0]] + t[1..][..|w| - 1];
        }
      }
    }
  }

  /** The realtime URL rewrite leaves no "http" behind. */
  lemma {:induction false} HttpToWsRemovesHttp(s: string)
    ensures !ContainsHttp(HttpToWs(s))
    decreases |s|
  {
    var r := HttpToWs(s);
    if s == [] {
    } else if HttpAt(s, 0) {
      var rest := HttpToWs(s[4..]);
      HttpToWsRewrites(s);
      HttpToWsRemovesHttp(s[4..]);
      forall i | 0 <= i < |r| ensures !HttpAt(r, i) {
        if i >= 2 {
          assert !HttpAt(rest, i - 2);
        }
      }
    } else {
      var rest := HttpToWs(s[1..]);
      HttpToWsCopies(s);
      HttpToWsRemovesHttp(s[1..]);
      forall i | 0 <= i < |r| ensures !HttpAt(r, i) {
        if i >= 1 {
          assert !HttpAt(rest, i - 1);
        } else if HttpAt(r, 0) {
          assert rest[..3] == "ttp";
          CopiedPrefix(s[1..], "ttp");
        }
      }
    }
  }

  /** A string with no "http" in it is left as it is. */
  lemma {:induction false} HttpToWsKeepsHttpFree(s: string)
    requires !ContainsHttp(s)
    ensures HttpToWs(s) == s
    decreases |s|
  {
    if s != [] {
      assert !HttpAt(s, 0);
      assert !ContainsHttp(s[1..]) by {
        forall i | 0 <= i < |s[1..]| ensures !HttpAt(s[1..], i) {
          assert !HttpAt(s, i + 1);
        }
      }
      HttpToWsCopies(s);
      HttpToWsKeepsHttpFree(s[1..]);
      assert s == [s[0]] + s[1..];
    }
  }

  /**
   * Appending a suffix that starts with '/' and holds no "http" commutes with
   * the rewrite: no occurrence can straddle the junction.
   */
  lemma {:induction false} HttpToWsAppend(u: string, v: string)
    requires v != [] && v[0] == '/' && !ContainsHttp(v)
    ensures HttpToWs(u + v) == HttpToWs(u) + v
    decreases |u|
  {
    if u == [] {
      assert u + v == v;
      HttpToWsKeepsHttpFree(v);
    } else if HttpAt(u, 0) {
      assert HttpAt(u + v, 0);
      HttpToWsRewrites(u);
      HttpToWsRewrites(u + v);
      assert (u + v)[4..] == u[4..] + v;
      HttpToWsAppend(u[4..], v);
    } else {
      assert !HttpAt(u + v, 0) by {
        if |u| < 4 && |u + v| >= 4 {
          assert (u + v)[|u|] == '/';
        }
      }
      HttpToWsCopies(u);
      HttpToWsCopies(u + v);
      assert (u + v)[1..] == u[1..] + v;
      HttpToWsAppend(u[1..], v);
    }
  }

  /** `Supa(supabase_url, supabase_key)`. */
  function NewSupa(supabaseUrl: string, supabaseKey: string): (s: Supa)
    ensures s.url == supabaseUrl && s.key == supabaseKey
    ensures s.restUrl == supabaseUrl + "/rest/v1"
    ensures s.authUrl == supabaseUrl + "/auth/v1"
    ensures s.storageUrl == supabaseUrl + "/storage/v1"
    ensures s.realtimeUrl == HttpToWs(supabaseUrl) + "/realtime/v1"
    ensures !ContainsHttp(s.realtimeUrl)
  {
    var realtime := HttpToWs(supabaseUrl + "/realtime/v1");
    assert !ContainsHttp("/realtime/v1") by {
      var v := "/realtime/v1";
      assert 'h' !in v;
      forall i | 0 <= i < |v| ensures !HttpAt(v, i) {
        assert v[i] in v;
      }
    }
    HttpToWsAppend(supabaseUrl, "/realtime/v1");
    HttpToWsRemovesHttp(supabaseUrl + "/realtime/v1");
    Supa(supabaseUrl, supabaseKey, supabaseUrl + "/rest/v1", realtime,
         supabaseUrl + "/auth/v1", supabaseUrl + "/storage/v1")
  }

  /** A secure project URL gets a secure websocket URL. */
  lemma SecureSchemeExample(key: string)
    ensures NewSupa("https://x", key).realtimeUrl == "wss://x/realtime/v1"
  {
    var u := "https://x";
    assert HttpAt(u, 0);
    HttpToWsRewrites(u);
    assert u[4..] == "s://x";
    HttpToWsKeepsHttpFree("s://x");
    assert HttpToWs(u) == "wss://x";
  }
}
