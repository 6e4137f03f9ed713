/** What `connect()` computes before it opens the Voice Live socket: the URL and the
    handshake headers. */
module Connection {

  /** `p` is a prefix of `s`. */
  predicate StartsWith(s: string, p: string) {
    |p| <= |s| && s[..|p|] == p
  }

  /** `p` occurs somewhere in `s`. */
  predicate Occurs(s: string, p: string) {
    exists i :: 0 <= i <= |s| && StartsWith(s[i..], p)
  }

  /** `s.replace(pat, with)`: every occurrence of `pat`, scanning from the left and
      not overlapping, becomes `with`. */
  function ReplaceAll(s: string, pat: string, with: string): (r: string)
    requires |pat| > 0
    ensures with == pat ==> r == s
    decreases |s|
  {
    if |s| < |pat| then s
    else if StartsWith(s, pat) then
      assert s == s[..|pat|] + s[|pat|..];
      with + ReplaceAll(s[|pat|..], pat, with)
    else
      assert s == [s[0]] + s[1..];
      [s[0]] + ReplaceAll(s[1..], pat, with)
  }

  const Path: string := "/voice-live/realtime?api-version=2025-05-01-preview&model="

  /** The Voice Live URL for an endpoint and a model: the realtime path, the API
      version and the model name, with the scheme https:// turned into wss://. */
  function RealtimeUrl(endpoint: string, model: string): (url: string)
    ensures StartsWith(endpoint, "https://") ==> StartsWith(url, "wss://")
  {
    var s := endpoint + Path + model;
    if StartsWith(endpoint, "https://") then
      assert s[..8] == endpoint[..8];
      ReplacementStartsWithWss(s);
      ReplaceAll(s, "https://", "wss://")
    else ReplaceAll(s, "https://", "wss://")
  }

  /** A text in which the pattern does not occur is left as it is. */
  lemma {:induction false} ReplaceAbsent(s: string, pat: string, with: string)
    requires |pat| > 0
    requires !Occurs(s, pat)
    ensures ReplaceAll(s, pat, with) == s
    decreases |s|
  {
    if |s| >= |pat| {
      assert s[0..] == s;
      assert !StartsWith(s, pat);
      forall i | 0 <= i <= |s[1..]| ensures !StartsWith(s[1..][i..], pat) {
        assert s[1..][i..] == s[i + 1..];
      }
      ReplaceAbsent(s[1..], pat, with);
      assert [s[0]] + s[1..] == s;
    }
  }

  /** A leading `https://` becomes `wss://`. */
  lemma ReplacementStartsWithWss(s: string)
    requires StartsWith(s, "https://")
    ensures StartsWith(ReplaceAll(s, "https://", "wss://"), "wss://")
  {
  }

  lemma ReplacementStartsWithW(s: string)
    requires |s| >= 8 && StartsWith(s, "https://")
    ensures |ReplaceAll(s, "https://", "wss://")| > 0 && ReplaceAll(s, "https://", "wss://")[0] == 'w'
  {
  }

  /** No `https://` starts inside a `wss://` that was written in its place. */
  lemma WssHasNoHttps(rest: string, i: nat)
    requires i < 6
    ensures !StartsWith(("wss://" + rest)[i..], "https://")
  {
    assert ("wss://" + rest)[i] == "wss://"[i] != 'h';
  }

  /** What the replacement writes starts with a text free of 'w' only if its input
      does: the scan copies characters one by one and a replacement starts with 'w'. */
  lemma {:induction false} PrefixWithoutW(s: string, t: string)
    requires forall k :: 0 <= k < |t| ==> t[k] != 'w'
    ensures StartsWith(ReplaceAll(s, "https://", "wss://"), t) ==> StartsWith(s, t)
    decreases |s|
  {
    if |s| >= 8 && |t| > 0 {
      var r := ReplaceAll(s, "https://", "wss://");
      if StartsWith(s, "https://") {
        ReplacementStartsWithW(s);
        assert t[0] != 'w';
      } else {
        var rest := ReplaceAll(s[1..], "https://", "wss://");
        assert r == [s[0]] + rest;
        PrefixWithoutW(s[1..], t[1..]);
        if StartsWith(r, t) {
          assert rest[..|t| - 1] == r[1..|t|] == t[1..];
          assert s[..|t|] == [s[0]] + s[1..][..|t| - 1];
        }
      }
    }
  }

  /** `https://` is an 'h' followed by `ttps://`. */
  lemma HttpsSplit(s: string)
    requires |s| >= 8
    ensures StartsWith(s, "https://") <==> s[0] == 'h' && StartsWith(s[1..], "ttps://")
  {
    assert s[..8] == [s[0]] + s[1..][..7];
  }

  /** A text that does not start with `https://`, with its first character kept
      and its rest `rest` starting with `ttps://` only when the original rest does,
      does not start with `https://` either. */
  lemma KeptFirst(s: string, r: string, rest: string)
    requires |s| >= 8 && !StartsWith(s, "https://") && r == [s[0]] + rest
    requires StartsWith(rest, "ttps://") ==> StartsWith(s[1..], "ttps://")
    ensures !StartsWith(r, "https://")
  {
    HttpsSplit(s);
    if |r| >= 8 {
      HttpsSplit(r);
      assert r[1..] == rest;
    }
  }

  /** Where no match starts, the scan copies the first character. */
  lemma CopiesFirst(s: string, pat: string, with: string)
    requires 0 < |pat| <= |s| && !StartsWith(s, pat)
    ensures ReplaceAll(s, pat, with) == [s[0]] + ReplaceAll(s[1..], pat, with)
  {
  }

  /** Copying a first character that does not start `https://` does not make the
      output start with it. */
  lemma CopiedFirst(s: string)
    requires |s| >= 8 && !StartsWith(s, "https://")
    ensures !StartsWith(ReplaceAll(s, "https://", "wss://"), "https://")
  {
    var rest := ReplaceAll(s[1..], "https://", "wss://");
    CopiesFirst(s, "https://", "wss://");
    PrefixWithoutW(s[1..], "ttps://");
    KeptFirst(s, ReplaceAll(s, "https://", "wss://"), rest);
  }

  /** A `wss://` in front of a text free of `https://` does not create one. */
  lemma WssPrefix(rest: string)
    requires !Occurs(rest, "https://")
    ensures !Occurs("wss://" + rest, "https://")
  {
    var r := "wss://" + rest;
    forall i | 0 <= i <= |r| ensures !StartsWith(r[i..], "https://") {
      if i < 6 {
        WssHasNoHttps(rest, i);
      } else {
        assert r[i..] == rest[i - 6..];
      }
    }
  }

  /** A character in front of a text free of `https://` creates one only where
      the whole starts with it. */
  lemma ConsPrefix(c: char, rest: string)
    requires !Occurs(rest, "https://") && !StartsWith([c] + rest, "https://")
    ensures !Occurs([c] + rest, "https://")
  {
    var r := [c] + rest;
    forall i | 0 <= i <= |r| ensures !StartsWith(r[i..], "https://") {
      if i > 0 {
        assert r[i..] == rest[i - 1..];
      }
    }
  }

  /** After the replacement no `https://` is left, wherever the input had one. */
  lemma {:induction false} NoHttpsLeft(s: string)
    ensures !Occurs(ReplaceAll(s, "https://", "wss://"), "https://")
    decreases |s|
  {
    var r := ReplaceAll(s, "https://", "wss://");
    if |s| >= 8 {
      if StartsWith(s, "https://") {
        NoHttpsLeft(s[8..]);
        WssPrefix(ReplaceAll(s[8..], "https://", "wss://"));
      } else {
        NoHttpsLeft(s[1..]);
        CopiedFirst(s);
        ConsPrefix(s[0], ReplaceAll(s[1..], "https://", "wss://"));
      }
    } else {
      forall i | 0 <= i <= |r| ensures !StartsWith(r[i..], "https://") {
      }
    }
  }

  /** The URL `connect()` opens never uses the https scheme. */
  lemma RealtimeUrlIsNotHttps(endpoint: string, model: string)
    ensures !Occurs(RealtimeUrl(endpoint, model), "https://")
  {
    NoHttpsLeft(endpoint + Path + model);
  }

  /** A leading `https://` becomes `wss://` and a rest free of it is kept. */
  lemma ReplaceLeading(rest: string)
    requires !Occurs(rest, "https://")
    ensures ReplaceAll("https://" + rest, "https://", "wss://") == "wss://" + rest
  {
    var s := "https://" + rest;
    assert StartsWith(s, "https://");
    assert s[8..] == rest;
    ReplaceAbsent(rest, "https://", "wss://");
  }

  /** For an https endpoint `https://host` whose rest mentions https:// nowhere, the
      URL is `wss://host/voice-live/realtime?api-version=2025-05-01-preview&model=<model>`. */
  lemma RealtimeUrlOfHttpsEndpoint(host: string, model: string)
    requires !Occurs(host + Path + model, "https://")
    ensures RealtimeUrl("https://" + host, model)
         == "wss://" + host + "/voice-live/realtime?api-version=2025-05-01-preview&model=" + model
  {
    var rest := host + Path + model;
    ReplaceLeading(rest);
    assert "https://" + host + Path + model == "https://" + rest;
    assert "wss://" + rest == "wss://" + host + Path + model;
  }

  // ---------------------------------------------------------------------------
  // Headers

  datatype Header = Header(name: string, value: string)

  /** A header that authenticates the connection. */
  predicate Authenticates(h: Header) {
    h.name == "Authorization" || h.name == "api-key"
  }

  /** The handshake headers, in insertion order: the request id, then a bearer
      token when a managed identity client id is configured (a non-empty string;
      a missing setting is the empty string), the API key otherwise. The request id
      and the token are inputs: one comes from uuid4, the other from the identity
      service. */
  function HandshakeHeaders(requestId: string, clientId: string, token: string, apiKey: string): (h: seq<Header>)
    ensures |h| == 2 && h[0] == Header("x-ms-client-request-id", requestId)
    ensures !Authenticates(h[0]) && Authenticates(h[1])
    ensures h[1].name == "Authorization" <==> clientId != ""
    ensures h[1].name == "Authorization" ==> h[1].value == "Bearer " + token
    ensures h[1].name == "api-key" ==> h[1].value == apiKey
  {
    var auth := if clientId != "" then Header("Authorization", "Bearer " + token) else Header("api-key", apiKey);
    [Header("x-ms-client-request-id", requestId), auth]
  }
}
