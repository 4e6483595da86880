/**
 SAE anti-clogging tokens: how the access point takes a token out of a commit, how it makes
 and checks one without keeping state, and how the client sends one back.
 */
module AntiClogging {
  import opened Common
  import opened KeyData

  type Commit = b: Bytes | |b| == 98 witness Zeros(98)
  type Token = b: Bytes | |b| == 32 witness Zeros(32)
  type Hmac = (Bytes, Bytes) -> Bytes

  const COMMIT_LENGTH: nat := 98
  const TOKEN_LIFETIME: nat := 10

  // ---- taking a token out ------------------------------------------------------------------

  predicate IsToken(id: byte, body: Bytes) {
    id == 255 && |body| == 33 && body[0] == 93
  }

  // Octets kept in front of what the rest of the walk keeps.
  function Keep(octets: Bytes, r: Option<(Bytes, Option<Bytes>)>): Option<(Bytes, Option<Bytes>)> {
    if r.None? then None else Some((octets + r.value.0, r.value.1))
  }

  // What is left of the elements without their token, and the token; None if an element is cut
  // short or a second token appears.
  function StripElements(b: Bytes, seen: Option<Bytes>): Option<(Bytes, Option<Bytes>)>
    decreases |b|
  {
    if b == [] then Some(([], seen))
    else if |b| < 2 || 2 + b[1] > |b| then None
    else
      var body, rest := b[2..2 + b[1]], b[2 + b[1]..];
      if IsToken(b[0], body) then
        if seen.Some? then None else StripElements(rest, Some(body[1..]))
      else
        Keep(b[..2 + b[1]], StripElements(rest, seen))
  }

  function Strip(payload: Bytes, h2e: bool): Option<(Bytes, Option<Bytes>)> {
    if |payload| < COMMIT_LENGTH then None
    else if !h2e then
      if |payload| >= COMMIT_LENGTH + 32 then Some((payload[..2] + payload[34..], Some(payload[2..34])))
      else Some((payload, None))
    else
      Keep(payload[..COMMIT_LENGTH], StripElements(payload[COMMIT_LENGTH..], None))
  }

  lemma {:induction false} KeepTwice(a: Bytes, b: Bytes, r: Option<(Bytes, Option<Bytes>)>)
    ensures Keep(a, Keep(b, r)) == Keep(a + b, r)
  {
    if r.Some? {
      assert a + (b + r.value.0) == a + b + r.value.0;
    }
  }

  // One element of the walk, seen from the whole payload.
  lemma {:induction false} StripAt(payload: Bytes, pos: nat, token: Option<Bytes>)
    requires pos < |payload|
    ensures var r := StripElements(payload[pos..], token);
            if |payload| - pos < 2 || pos + 2 + payload[pos + 1] > |payload| then r.None?
            else
              var end := pos + 2 + payload[pos + 1];
              var body := payload[pos + 2..end];
              if IsToken(payload[pos], body) then
                r == if token.Some? then None else StripElements(payload[end..], Some(body[1..]))
              else r == Keep(payload[pos..end], StripElements(payload[end..], token))
  {
    var b := payload[pos..];
    if |b| >= 2 && 2 + b[1] <= |b| {
      var end := pos + 2 + payload[pos + 1];
      assert b[..2 + b[1]] == payload[pos..end] && b[2..2 + b[1]] == payload[pos + 2..end] && b[2 + b[1]..] == payload[end..];
    }
  }

  method SaeCommitToken(payload: Bytes, h2e: bool) returns (r: Option<(Bytes, Option<Bytes>)>)
    ensures r == Strip(payload, h2e)
  {
    hide StripElements, Keep;
    if |payload| < COMMIT_LENGTH {
      return None;
    }
    if !h2e {
      if |payload| >= COMMIT_LENGTH + 32 {
        return Some((payload[..2] + payload[34..], Some(payload[2..34])));
      }
      return Some((payload, None));
    }
    var commit := payload[..COMMIT_LENGTH];
    var token: Option<Bytes> := None;
    var pos := COMMIT_LENGTH;
    while pos < |payload|
      invariant COMMIT_LENGTH <= pos <= |payload|
      invariant Strip(payload, h2e) == Keep(commit, StripElements(payload[pos..], token))
    {
      StripAt(payload, pos, token);
      KeepNone(commit);
      if |payload| - pos < 2 {
        return None;
      }
      var len := payload[pos + 1];
      var end := pos + 2 + len;
      if end > |payload| {
        return None;
      }
      if payload[pos] == 255 && len == 33 && payload[pos + 2] == 93 {
        if token.Some? {
          return None;
        }
        token := Some(payload[pos + 3..end]);
        assert payload[pos + 2..end][1..] == payload[pos + 3..end];
      } else {
        KeepTwice(commit, payload[pos..end], StripElements(payload[end..], token));
        commit := commit + payload[pos..end];
      }
      pos := end;
    }
    r := Some((commit, token));
    NothingToStrip(commit, token);
    assert payload[pos..] == [];
  }

  lemma {:induction false} KeepNone(a: Bytes)
    ensures Keep(a, None) == None
  {
  }

  lemma {:induction false} NothingToStrip(commit: Bytes, token: Option<Bytes>)
    ensures Keep(commit, StripElements([], token)) == Some((commit, token))
  {
    assert commit + [] == commit;
  }

  // ---- what taking it out means --------------------------------------------------------------------

  function OtherElements(es: seq<Element>): seq<Element> {
    if es == [] then []
    else (if IsToken(es[0].id, es[0].body) then [] else [es[0]]) + OtherElements(es[1..])
  }

  function Tokens(es: seq<Element>): seq<Bytes> {
    if es == [] then []
    else (if IsToken(es[0].id, es[0].body) then [es[0].body[1..]] else []) + Tokens(es[1..])
  }

  lemma {:induction false} OthersSendable(es: seq<Element>)
    requires Sendable(es)
    ensures Sendable(OtherElements(es))
  {
    if es != [] {
      assert forall e :: e in es[1..] ==> e in es;
      OthersSendable(es[1..]);
    }
  }

  function Head(e: Element): Bytes
    requires |e.body| <= 255
  {
    [e.id, |e.body|] + e.body
  }

  lemma {:induction false} StripOne(e: Element, rest: Bytes, seen: Option<Bytes>)
    requires |e.body| <= 255
    ensures StripElements([e.id, |e.body|] + e.body + rest, seen)
         == (if IsToken(e.id, e.body) then
               if seen.Some? then None else StripElements(rest, Some(e.body[1..]))
             else
               var r := StripElements(rest, seen);
               if r.None? then None else Some((Head(e) + r.value.0, r.value.1)))
  {
    var b: Bytes := [e.id, |e.body|] + e.body + rest;
    assert b[2..2 + b[1]] == e.body && b[2 + b[1]..] == rest && b[..2 + b[1]] == [e.id, |e.body|] + e.body;
  }

  // For any list of elements: the token is taken out if there is at most one, everything else
  // stays in order, and more than one is refused.
  lemma {:induction false} StripTakesTokens(es: seq<Element>, seen: Option<Bytes>)
    requires Sendable(es)
    ensures Sendable(OtherElements(es))
    ensures var found := (if seen.Some? then [seen.value] else []) + Tokens(es);
            StripElements(Encode(es), seen)
            == if |found| > 1 then None
               else Some((Encode(OtherElements(es)), if found == [] then None else Some(found[0])))
  {
    OthersSendable(es);
    if es != [] {
      var e, tail := es[0], es[1..];
      assert forall x :: x in tail ==> x in es;
      assert Encode(es) == [e.id, |e.body|] + e.body + Encode(tail);
      StripOne(e, Encode(tail), seen);
      OthersSendable(tail);
      hide StripElements, Encode, Sendable;
      if IsToken(e.id, e.body) {
        var t := e.body[1..];
        assert OtherElements(es) == OtherElements(tail) && Tokens(es) == [t] + Tokens(tail);
        hide IsToken, Tokens, OtherElements;
        if seen.None? {
          StripTakesTokens(tail, Some(t));
          assert [] + ([t] + Tokens(tail)) == [t] + Tokens(tail);
        }
      } else {
        assert OtherElements(es) == [e] + OtherElements(tail) && Tokens(es) == Tokens(tail);
        hide IsToken, Tokens, OtherElements;
        EncodeCons(e, OtherElements(tail));
        StripTakesTokens(tail, seen);
      }
    }
  }

  // ---- making and checking a token ------------------------------------------------------------------------

  function BigEndian(value: nat, width: nat): (b: Bytes)
    ensures |b| == width
  {
    if width == 0 then [] else BigEndian(value / 256, width - 1) + [value % 256]
  }

  function FromBigEndian(b: Bytes): nat {
    if b == [] then 0 else 256 * FromBigEndian(b[..|b| - 1]) + b[|b| - 1]
  }

  lemma {:induction false} BigEndianRoundTrip(value: nat, width: nat)
    ensures FromBigEndian(BigEndian(value, width)) == value % Pow256(width)
  {
    if width > 0 {
      BigEndianRoundTrip(value / 256, width - 1);
      assert BigEndian(value, width)[..width - 1] == BigEndian(value / 256, width - 1);
      DivModTower(value, Pow256(width - 1));
    }
  }

  lemma {:induction false} BigEndianUnique(b: Bytes)
    ensures BigEndian(FromBigEndian(b), |b|) == b
  {
    if b != [] {
      BigEndianUnique(b[..|b| - 1]);
      assert b == b[..|b| - 1] + [b[|b| - 1]];
    }
  }

  // The octets "rustap-sae-token-v1" that start every input.
  const LABEL: Bytes := [0x72, 0x75, 0x73, 0x74, 0x61, 0x70, 0x2d, 0x73, 0x61, 0x65, 0x2d, 0x74, 0x6f, 0x6b, 0x65, 0x6e, 0x2d, 0x76, 0x31]

  function Digest(hmac: Hmac, key: Bytes, sta: Octets6, h2e: bool, commit: Bytes, issued: Bytes): (m: Bytes)
    ensures |m| == 24
  {
    var m := hmac(key, LABEL + issued + sta + [if h2e then 1 else 0] + commit);
    if |m| >= 24 then m[..24] else Zeros(24)
  }

  function TokenAt(hmac: Hmac, key: Bytes, sta: Octets6, h2e: bool, commit: Bytes, issued: nat): Token {
    BigEndian(issued, 8) + Digest(hmac, key, sta, h2e, commit, BigEndian(issued, 8))
  }

  function IssuedAt(token: Token): nat {
    FromBigEndian(token[..8])
  }

  predicate ValidToken(hmac: Hmac, key: Bytes, sta: Octets6, h2e: bool, commit: Bytes, token: Token, now: nat) {
    var issued := IssuedAt(token);
    && issued <= now && now - issued <= TOKEN_LIFETIME
    && token[8..] == TokenAt(hmac, key, sta, h2e, commit, issued)[8..]
  }

  // A token is valid exactly when it is the one that was issued for this station, method and
  // commit at a time no more than a lifetime ago.
  lemma {:induction false} ValidIffIssued(hmac: Hmac, key: Bytes, sta: Octets6, h2e: bool, commit: Bytes, token: Token, now: nat)
    requires now < Pow256(8)
    ensures ValidToken(hmac, key, sta, h2e, commit, token, now)
       <==> exists issued: nat :: issued <= now <= issued + TOKEN_LIFETIME && token == TokenAt(hmac, key, sta, h2e, commit, issued)
  {
    hide Digest, Pow256;
    if ValidToken(hmac, key, sta, h2e, commit, token, now) {
      BigEndianUnique(token[..8]);
      assert token == token[..8] + token[8..];
      assert token == TokenAt(hmac, key, sta, h2e, commit, IssuedAt(token));
    }
    if issued: nat :| issued <= now <= issued + TOKEN_LIFETIME && token == TokenAt(hmac, key, sta, h2e, commit, issued) {
      TokenCarriesTime(hmac, key, sta, h2e, commit, issued);
    }
  }

  lemma {:induction false} TokenCarriesTime(hmac: Hmac, key: Bytes, sta: Octets6, h2e: bool, commit: Bytes, issued: nat)
    requires issued < Pow256(8)
    ensures IssuedAt(TokenAt(hmac, key, sta, h2e, commit, issued)) == issued
  {
    hide Digest;
    BigEndianRoundTrip(issued, 8);
    assert TokenAt(hmac, key, sta, h2e, commit, issued)[..8] == BigEndian(issued, 8);
  }

  // ---- the request and the answer ---------------------------------------------------------------------------------

  // The body of the access point's token request.
  function TokenRequest(commit: Bytes, h2e: bool, token: Token): Bytes
    requires |commit| >= 2
  {
    commit[..2] + (if h2e then [255, 33, 93] else []) + token
  }

  // The client's reading of it.
  function TokenOf(payload: Bytes, h2e: bool): Option<Token> {
    if h2e then
      if |payload| != 37 || payload[2] != 255 || payload[3] != 33 || payload[4] != 93 then None else Some(payload[5..])
    else if |payload| != 34 then None
    else Some(payload[2..])
  }

  // The Multi-Link element of authentication frames.
  function MultiLinkAuth(mld: Octets6): Element {
    Element(255, [107, 0, 0, 7] + mld)
  }

  function MldElements(mld: Option<Octets6>): seq<Element> {
    if mld.None? then [] else [MultiLinkAuth(mld.value)]
  }

  function Mle(mld: Option<Octets6>): Bytes {
    if mld.None? then [] else [255, 10, 107, 0, 0, 7] + mld.value
  }

  // The client's commit, first without a token and then with the one it was given.
  function FirstCommit(core: Commit, mld: Option<Octets6>): Bytes {
    core + Mle(mld)
  }

  function CommitWithToken(core: Commit, h2e: bool, token: Token, mld: Option<Octets6>): Bytes {
    if h2e then core + [255, 33, 93] + token + Mle(mld) else core[..2] + token + core[2..] + Mle(mld)
  }

  lemma {:induction false} MleIsElement(mld: Option<Octets6>)
    ensures Sendable(MldElements(mld)) && Encode(MldElements(mld)) == Mle(mld)
    ensures Tokens(MldElements(mld)) == [] && OtherElements(MldElements(mld)) == MldElements(mld)
  {
    if mld.Some? {
      var e := MultiLinkAuth(mld.value);
      assert Encode([]) == [] && [e][1..] == [];
      assert Encode([e]) == [255, 10] + ([107, 0, 0, 7] + mld.value);
    }
  }

  lemma {:induction false} FirstCommitIsCanonical(core: Commit, h2e: bool, mld: Option<Octets6>)
    ensures Strip(FirstCommit(core, mld), h2e) == Some((FirstCommit(core, mld), None))
  {
    var p := FirstCommit(core, mld);
    assert p[..98] == core && p[98..] == Mle(mld);
    MleIsElement(mld);
    StripTakesTokens(MldElements(mld), None);
    hide StripElements, MldElements, Encode;
  }

  function Container(token: Token): Element {
    Element(255, [93] + token)
  }

  lemma {:induction false} ContainerIsToken(token: Token, rest: seq<Element>)
    requires Tokens(rest) == [] && OtherElements(rest) == rest
    ensures Tokens([Container(token)] + rest) == [token] && OtherElements([Container(token)] + rest) == rest
  {
    var es := [Container(token)] + rest;
    assert es[1..] == rest;
    assert es[0].body[1..] == token;
  }

  lemma {:induction false} ContainerOctets(token: Token, rest: seq<Element>)
    requires Sendable(rest)
    ensures Sendable([Container(token)] + rest)
    ensures Encode([Container(token)] + rest) == [255, 33, 93] + token + Encode(rest)
  {
    EncodeCons(Container(token), rest);
    hide Encode, Sendable;
    assert [255, 33] + ([93] + token) + Encode(rest) == [255, 33, 93] + token + Encode(rest);
  }

  lemma {:induction false} TokenIsStrippedH2e(core: Commit, token: Token, mld: Option<Octets6>)
    ensures Strip(CommitWithToken(core, true, token, mld), true) == Some((FirstCommit(core, mld), Some(token)))
  {
    hide Encode, StripElements, MldElements, Tokens, OtherElements, Sendable, Mle;
    MleIsElement(mld);
    ContainerIsToken(token, MldElements(mld));
    ContainerOctets(token, MldElements(mld));
    StripTakesTokens([Container(token)] + MldElements(mld), None);
    var p := CommitWithToken(core, true, token, mld);
    assert p == core + ([255, 33, 93] + token + Mle(mld));
    assert p[..98] == core && p[98..] == [255, 33, 93] + token + Mle(mld);
  }

  lemma {:induction false} TokenIsStrippedLegacy(core: Commit, token: Token, mld: Option<Octets6>)
    ensures Strip(CommitWithToken(core, false, token, mld), false) == Some((FirstCommit(core, mld), Some(token)))
  {
    var p := CommitWithToken(core, false, token, mld);
    assert p[..2] == core[..2] && p[2..34] == token && p[34..] == core[2..] + Mle(mld);
    assert core[..2] + (core[2..] + Mle(mld)) == core + Mle(mld);
  }

  lemma {:induction false} TokenIsStripped(core: Commit, h2e: bool, token: Token, mld: Option<Octets6>)
    ensures Strip(CommitWithToken(core, h2e, token, mld), h2e) == Some((FirstCommit(core, mld), Some(token)))
  {
    hide Strip, CommitWithToken;
    TokenIsStrippedH2e(core, token, mld);
    TokenIsStrippedLegacy(core, token, mld);
  }

  lemma {:induction false} TokenIsRead(core: Commit, h2e: bool, token: Token, mld: Option<Octets6>)
    ensures TokenOf(TokenRequest(FirstCommit(core, mld), h2e, token), h2e) == Some(token)
  {
    var r := TokenRequest(FirstCommit(core, mld), h2e, token);
    if h2e {
      assert r[5..] == token;
    } else {
      assert r[2..] == token;
    }
  }

  // The whole exchange, for both placements and for link and Multi-Link clients: the token
  // issued for the first commit comes back on the same commit and is valid until its lifetime
  // ends, and not one second longer.
  lemma {:induction false} TokenRoundTrip(hmac: Hmac, key: Bytes, sta: Octets6, core: Commit, h2e: bool, mld: Option<Octets6>,
                                          issued: nat, now: nat)
    requires issued <= now < Pow256(8)
    ensures var first := Strip(FirstCommit(core, mld), h2e);
            && first == Some((FirstCommit(core, mld), None))
            && var token := TokenAt(hmac, key, sta, h2e, first.value.0, issued);
               var given := TokenOf(TokenRequest(first.value.0, h2e, token), h2e);
               && given.Some?
               && var again := Strip(CommitWithToken(core, h2e, given.value, mld), h2e);
                  && again == Some((first.value.0, Some(token)))
                  && (ValidToken(hmac, key, sta, h2e, again.value.0, token, now) <==> now <= issued + TOKEN_LIFETIME)
  {
    hide Strip, TokenOf, TokenRequest, CommitWithToken, Digest, Pow256;
    FirstCommitIsCanonical(core, h2e, mld);
    var commit := FirstCommit(core, mld);
    var token := TokenAt(hmac, key, sta, h2e, commit, issued);
    TokenIsRead(core, h2e, token, mld);
    TokenIsStripped(core, h2e, token, mld);
    TokenCarriesTime(hmac, key, sta, h2e, commit, issued);
    hide TokenAt;
  }
}
