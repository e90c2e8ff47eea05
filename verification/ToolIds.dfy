/** Tool-use ids are rewritten to a form every provider accepts. The digest of the original
    id is a parameter: any function giving twelve hexadecimal characters. */
module ToolIds {
  const MAX_LENGTH := 64
  const PREFIX := "srvtoolu_"
  const DIGEST_LENGTH := 12

  predicate AlphaNumeric(c: char) {
    'a' <= c <= 'z' || 'A' <= c <= 'Z' || '0' <= c <= '9'
  }

  predicate Allowed(c: char, server: bool) {
    AlphaNumeric(c) || c == '_' || (!server && c == '-')
  }

  predicate AllAllowed(s: string, server: bool) {
    forall i :: 0 <= i < |s| ==> Allowed(s[i], server)
  }

  predicate HasPrefix(id: string) {
    |id| >= |PREFIX| && id[..|PREFIX|] == PREFIX
  }

  function TrimPrefix(id: string): string {
    if HasPrefix(id) then id[|PREFIX|..] else id
  }

  predicate Acceptable(id: string, server: bool) {
    && id != "" && |id| <= MAX_LENGTH
    && (server ==> HasPrefix(id) && TrimPrefix(id) != "")
    && AllAllowed(if server then TrimPrefix(id) else id, server)
  }

  function Clean(s: string, server: bool): (r: string)
    ensures |r| == |s| && AllAllowed(r, server)
    ensures forall i :: 0 <= i < |s| && Allowed(s[i], server) ==> r[i] == s[i]
  {
    seq(|s|, i requires 0 <= i < |s| => if Allowed(s[i], server) then s[i] else '_')
  }

  function TrimLeft(s: string): string {
    if s != "" && s[0] == '_' then TrimLeft(s[1..]) else s
  }

  function TrimRight(s: string): string {
    if s != "" && s[|s| - 1] == '_' then TrimRight(s[..|s| - 1]) else s
  }

  function Base(id: string, server: bool): string {
    var body := if server then TrimPrefix(id) else id;
    var base := TrimRight(TrimLeft(Clean(body, server)));
    if base == "" then "tool" else base
  }

  function Lead(server: bool): string {
    if server then PREFIX else ""
  }

  ghost predicate DigestOk(digest: string -> string) {
    forall s :: |digest(s)| == DIGEST_LENGTH && AllAllowed(digest(s), true)
  }

  /** The part of the base there is room for. */
  function Kept(id: string, server: bool): string {
    var room := MAX_LENGTH - |Lead(server)| - (1 + DIGEST_LENGTH);
    var base := Base(id, server);
    if |base| > room then base[..room] else base
  }

  /** What follows the prefix of a rewritten id. */
  function Rewritten(id: string, server: bool, digest: string -> string): string {
    Kept(id, server) + "_" + digest(id)
  }

  function Sanitize(id: string, server: bool, digest: string -> string): string {
    if Acceptable(id, server) then id else Lead(server) + Rewritten(id, server, digest)
  }

  lemma {:induction false} TrimAllowed(s: string, server: bool)
    requires AllAllowed(s, server)
    ensures AllAllowed(TrimLeft(s), server) && AllAllowed(TrimRight(s), server)
    decreases |s|
  {
    if s != "" {
      if s[0] == '_' { TrimAllowed(s[1..], server); }
      if s[|s| - 1] == '_' { TrimAllowed(s[..|s| - 1], server); }
    }
  }

  lemma BaseAllowed(id: string, server: bool)
    ensures Base(id, server) != "" && AllAllowed(Base(id, server), server)
  {
    var body := if server then TrimPrefix(id) else id;
    TrimAllowed(Clean(body, server), server);
    TrimAllowed(TrimLeft(Clean(body, server)), server);
    var tool := "tool";
    assert AllAllowed(tool, server);
  }

  lemma AllowedParts(a: string, b: string, server: bool)
    requires AllAllowed(a, server) && AllAllowed(b, true)
    ensures AllAllowed(a + "_" + b, server)
  {
  }

  lemma PrefixedIsAcceptable(tail: string)
    requires tail != "" && |PREFIX| + |tail| <= MAX_LENGTH && AllAllowed(tail, true)
    ensures Acceptable(PREFIX + tail, true)
  {
    assert (PREFIX + tail)[..|PREFIX|] == PREFIX;
    assert (PREFIX + tail)[|PREFIX|..] == tail;
  }

  lemma RewrittenFits(id: string, server: bool, digest: string -> string)
    requires DigestOk(digest)
    ensures var r := Rewritten(id, server, digest);
      r != "" && |Lead(server)| + |r| <= MAX_LENGTH && AllAllowed(r, server)
  {
    BaseAllowed(id, server);
    AllowedParts(Kept(id, server), digest(id), server);
  }

  /** Whatever the id, the result is one the provider accepts. */
  lemma SanitizedIsAcceptable(id: string, server: bool, digest: string -> string)
    requires DigestOk(digest)
    ensures Acceptable(Sanitize(id, server, digest), server)
  {
    if !Acceptable(id, server) {
      RewrittenFits(id, server, digest);
      var r := Rewritten(id, server, digest);
      if server {
        PrefixedIsAcceptable(r);
      } else {
        assert Lead(server) + r == r;
      }
    }
  }

  predicate AllUnderscores(s: string) {
    forall i :: 0 <= i < |s| ==> s[i] == '_'
  }

  /** The core is the text without the underscores at both of its ends. */
  predicate Core(text: string, core: string) {
    && (core != "" ==> core[0] != '_' && core[|core| - 1] != '_')
    && exists i, j :: 0 <= i <= j <= |text| && text[i..j] == core &&
         AllUnderscores(text[..i]) && AllUnderscores(text[j..])
  }

  lemma {:induction false} TrimLeftSplits(s: string) returns (i: nat)
    ensures i <= |s| && TrimLeft(s) == s[i..] && AllUnderscores(s[..i])
    ensures TrimLeft(s) != "" ==> TrimLeft(s)[0] != '_'
    decreases |s|
  {
    i := 0;
    if s != "" && s[0] == '_' {
      var k := TrimLeftSplits(s[1..]);
      i := k + 1;
      assert s[1..][k..] == s[i..];
      assert s[..i] == [s[0]] + s[1..][..k];
    }
  }

  lemma {:induction false} TrimRightSplits(s: string) returns (j: nat)
    ensures j <= |s| && TrimRight(s) == s[..j] && AllUnderscores(s[j..])
    ensures TrimRight(s) != "" ==> TrimRight(s)[|TrimRight(s)| - 1] != '_'
    decreases |s|
  {
    j := |s|;
    if s != "" && s[|s| - 1] == '_' {
      var n := |s| - 1;
      j := TrimRightSplits(s[..n]);
      assert s[..n][..j] == s[..j];
      assert s[j..] == s[..n][j..] + [s[n]];
    } else {
      assert s[..j] == s;
    }
  }

  lemma TrimmedIsCore(text: string)
    ensures Core(text, TrimRight(TrimLeft(text)))
  {
    var i := TrimLeftSplits(text);
    var rest := text[i..];
    var j := TrimRightSplits(rest);
    assert rest[..j] == text[i..i + j];
    assert rest[j..] == text[i + j..];
    if j > 0 { assert rest[0] == TrimLeft(text)[0]; }
  }

  predicate Cleaned(raw: string, text: string, server: bool) {
    |text| == |raw| && forall i :: 0 <= i < |raw| ==> text[i] == if Allowed(raw[i], server) then raw[i] else '_'
  }

  /** As much of the core as there is room for, or "tool" if there is no core. */
  predicate Fills(core: string, kept: string, server: bool) {
    var whole, room := if core == "" then "tool" else core, if server then 42 else 51;
    kept <= whole && |kept| <= room && (kept == whole || |kept| == room)
  }

  predicate Keeps(id: string, server: bool, text: string, core: string, kept: string) {
    Cleaned(Unprefixed(id, server), text, server) && Core(text, core) && Fills(core, kept, server)
  }

  /** What an id becomes. One that is accepted stays. Any other keeps as much as there is room for
      of its text, without a server prefix, with underscores for the characters not allowed and
      none at the ends, or "tool" if nothing is left, and ends in the digest of the whole id. */
  lemma SanitizeMeans(id: string, server: bool, digest: string -> string)
    ensures Acceptable(id, server) ==> Sanitize(id, server, digest) == id
    ensures !Acceptable(id, server) ==> exists text, core, kept ::
      Keeps(id, server, text, core, kept) &&
      Sanitize(id, server, digest) == (if server then "srvtoolu_" else "") + (kept + "_" + digest(id))
  {
    if !Acceptable(id, server) {
      var text := Clean(Unprefixed(id, server), server);
      var core := TrimRight(TrimLeft(text));
      TrimmedIsCore(text);
      KeptFills(id, server, core);
      assert Keeps(id, server, text, core, Kept(id, server));
    }
  }

  lemma KeptFills(id: string, server: bool, core: string)
    requires core == TrimRight(TrimLeft(Clean(Unprefixed(id, server), server)))
    ensures Fills(core, Kept(id, server), server)
  {
    assert Unprefixed(id, server) == if server then TrimPrefix(id) else id;
    assert Base(id, server) == if core == "" then "tool" else core;
  }

  function Unprefixed(id: string, server: bool): string {
    if server && |id| >= 9 && id[..9] == "srvtoolu_" then id[9..] else id
  }

  /** Rewriting an id again changes nothing. */
  lemma SanitizeIdempotent(id: string, server: bool, digest: string -> string)
    requires DigestOk(digest)
    ensures Sanitize(Sanitize(id, server, digest), server, digest) == Sanitize(id, server, digest)
  {
    SanitizedIsAcceptable(id, server, digest);
  }

  /** Two different ids become one only if their digests collide, or if one of them already
      was what the other is rewritten to. */
  lemma CollisionsNeedTheDigest(a: string, b: string, server: bool, digest: string -> string)
    requires DigestOk(digest) && a != b && Sanitize(a, server, digest) == Sanitize(b, server, digest)
    ensures
      || (!Acceptable(a, server) && !Acceptable(b, server) && digest(a) == digest(b))
      || (Acceptable(a, server) && a == Sanitize(b, server, digest))
      || (Acceptable(b, server) && b == Sanitize(a, server, digest))
  {
    if !Acceptable(a, server) && !Acceptable(b, server) {
      SameEnd(Lead(server) + Kept(a, server) + "_", digest(a), Lead(server) + Kept(b, server) + "_", digest(b));
      Reassociate(a, server, digest);
      Reassociate(b, server, digest);
    }
  }

  lemma Reassociate(id: string, server: bool, digest: string -> string)
    ensures Lead(server) + Rewritten(id, server, digest) == Lead(server) + Kept(id, server) + "_" + digest(id)
  {
    var l, k, d := Lead(server), Kept(id, server), digest(id);
    Concat(l, k, d);
  }

  lemma Concat(l: string, k: string, d: string)
    ensures l + (k + "_" + d) == l + k + "_" + d
  {
  }

  lemma SameEnd(a: string, d: string, b: string, e: string)
    requires |d| == |e|
    ensures a + d == b + e ==> d == e
  {
    if a + d == b + e {
      assert (a + d)[|a|..] == d;
      assert (b + e)[|b|..] == e;
    }
  }

  /** The character loop. */
  method CleanLoop(s: string, server: bool) returns (r: string)
    ensures r == Clean(s, server)
  {
    r := "";
    for i := 0 to |s|
      invariant r == Clean(s, server)[..i]
    {
      r := r + [if Allowed(s[i], server) then s[i] else '_'];
    }
  }
}
