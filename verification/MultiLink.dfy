/**
 Multi-Link elements: fragmentation of long elements and its inverse (section 10.28.12 of
 IEEE 802.11-2020), the access point's Basic Multi-Link element with one profile per link,
 the strict parser that reads it, and the Non-Inheritance element.
 */
module MultiLink {
  import opened Common
  import opened KeyData

  type LinkId = n: nat | n < 16

  const FRAGMENT: byte := 254
  const EXTENSION: byte := 255
  const MULTI_LINK: byte := 107
  const NON_INHERITANCE: byte := 56
  const BEACON_INTERVAL_TU: byte := 100

  function Low(n: u16): byte { n % 256 }
  function High(n: u16): byte { n / 256 }

  // ---- fragmentation -------------------------------------------------------------------

  // The Fragment elements after the first 255 octets: the last one is shorter than 255.
  function Fragments(rest: Bytes): (b: Bytes) {
    if |rest| < 255 then [FRAGMENT, |rest|] + rest
    else [FRAGMENT, 255] + rest[..255] + Fragments(rest[255..])
  }

  function Fragmented(id: byte, body: Bytes): Bytes {
    if |body| <= 255 then [id, |body|] + body
    else [id, 255] + body[..255] + Fragments(body[255..])
  }

  method FragmentedElement(id: byte, body: Bytes) returns (v: Bytes)
    ensures v == Fragmented(id, body)
  {
    if |body| <= 255 {
      return [id, |body|] + body;
    }
    v := [id, 255] + body[..255];
    var rest: Bytes := body[255..];
    assert [id, 255] + body[..255] + Fragments(body[255..]) == v + Fragments(rest);
    var going := true;
    while going
      invariant going ==> |rest| > 0 && Fragmented(id, body) == v + Fragments(rest)
      invariant !going ==> Fragmented(id, body) == v
      decreases going, |rest|
    {
      var n := Min(|rest|, 255);
      ghost var before, was := v, rest;
      var piece: Bytes := [FRAGMENT, n] + rest[..n];
      v := v + piece;
      rest := rest[n..];
      assert n < 255 ==> Fragments(was) == piece;
      assert n == 255 ==> before + Fragments(was) == v + Fragments(rest);
      if n < 255 {
        going := false;
      } else if rest == [] {
        assert Fragments(rest) == [FRAGMENT, 0];
        v := v + [FRAGMENT, 0];
        going := false;
      }
    }
  }

  // Defragmentation: after a piece of 255 octets, Fragment elements continue it until one
  // that is shorter. Answers the body and what follows.
  function Gather(b: Bytes): Option<(Bytes, Bytes)>
    decreases |b|
  {
    if b == [] || b[0] != FRAGMENT then Some(([], b))
    else if |b| < 2 || 2 + b[1] > |b| then None
    else if b[1] < 255 then Some((b[2..2 + b[1]], b[2 + b[1]..]))
    else
      var more := Gather(b[257..]);
      if more.None? then None else Some((b[2..257] + more.value.0, more.value.1))
  }

  function Defragment(b: Bytes): Option<(byte, Bytes, Bytes)> {
    if |b| < 2 || 2 + b[1] > |b| then None
    else if b[1] < 255 then Some((b[0], b[2..2 + b[1]], b[2 + b[1]..]))
    else
      var more := Gather(b[257..]);
      if more.None? then None else Some((b[0], b[2..257] + more.value.0, more.value.1))
  }

  lemma {:induction false} GatherFragments(rest: Bytes, after: Bytes)
    ensures Gather(Fragments(rest) + after) == Some((rest, after))
  {
    var b := Fragments(rest) + after;
    if |rest| < 255 {
      assert b[0] == FRAGMENT && b[1] == |rest|;
      assert b[2..2 + |rest|] == rest && b[2 + |rest|..] == after;
    } else {
      GatherFragments(rest[255..], after);
      var tail := Fragments(rest[255..]) + after;
      var piece: Bytes := [FRAGMENT, 255];
      assert b == piece + rest[..255] + tail;
      assert b[2..257] == rest[..255] && b[257..] == tail;
      assert rest[..255] + rest[255..] == rest;
    }
  }

  lemma {:induction false} GatherShortens(b: Bytes)
    requires b != [] && b[0] == FRAGMENT
    ensures Gather(b).Some? ==> |Gather(b).value.1| < |b|
    decreases |b|
  {
    if |b| >= 257 && b[1] == 255 && b[257..] != [] && b[257] == FRAGMENT {
      GatherShortens(b[257..]);
    }
  }

  lemma {:induction false} LongDefragments(id: byte, body: Bytes, after: Bytes)
    requires |body| > 255
    ensures Defragment(Fragmented(id, body) + after) == Some((id, body, after))
  {
    hide Gather, Fragments;
    var b := Fragmented(id, body) + after;
    var tail := Fragments(body[255..]) + after;
    GatherFragments(body[255..], after);
    var head: Bytes := [id, 255];
    assert b == head + body[..255] + tail;
    assert b[0] == id && b[1] == 255 && b[2..257] == body[..255] && b[257..] == tail;
    assert body[..255] + body[255..] == body;
  }

  lemma {:induction false} ShortDefragments(id: byte, body: Bytes, after: Bytes)
    requires |body| <= 255
    ensures Defragment(Fragmented(id, body) + after) == Some((id, body, after)) <==>
            !(|body| == 255 && after != [] && after[0] == FRAGMENT)
  {
    var b := Fragmented(id, body) + after;
    assert b[0] == id && b[1] == |body| && b[2..2 + |body|] == body && b[2 + |body|..] == after;
    if |body| == 255 {
      assert b[257..] == after && b[2..257] == body;
      if after != [] && after[0] == FRAGMENT {
        GatherShortens(after);
      } else {
        assert body + [] == body;
      }
    }
  }

  // Defragmentation inverts fragmentation for every body and whatever follows, except that a
  // body of exactly 255 octets takes a following Fragment element for its own.
  lemma {:induction false} DefragmentsIff(id: byte, body: Bytes, after: Bytes)
    ensures Defragment(Fragmented(id, body) + after) == Some((id, body, after)) <==>
            !(|body| == 255 && after != [] && after[0] == FRAGMENT)
  {
    if |body| > 255 {
      LongDefragments(id, body, after);
    } else {
      ShortDefragments(id, body, after);
    }
  }

  // ---- the elements inside a profile -----------------------------------------------------------

  // The Non-Inheritance payload: two lists, each with its length, filling it exactly.
  predicate TwoLists(p: Bytes) {
    p != [] && var n: nat := p[0]; 1 + n < |p| && 2 + n + p[1 + n] == |p|
  }

  predicate ValidIes(b: Bytes)
    decreases |b|
  {
    b == [] ||
    (|b| >= 2 && 2 + b[1] <= |b|
     && (b[0] == EXTENSION && b[1] >= 1 && b[2] == NON_INHERITANCE ==> TwoLists(b[3..2 + b[1]]))
     && ValidIes(b[2 + b[1]..]))
  }

  // One element of the walk, seen from the whole block.
  lemma {:induction false} ValidAt(ies: Bytes, pos: nat)
    requires pos < |ies|
    ensures ValidIes(ies[pos..]) ==
            (&& pos + 2 <= |ies| && pos + 2 + ies[pos + 1] <= |ies|
             && (ies[pos] == EXTENSION && ies[pos + 1] >= 1 && ies[pos + 2] == NON_INHERITANCE ==>
                   TwoLists(ies[pos + 3..pos + 2 + ies[pos + 1]]))
             && ValidIes(ies[pos + 2 + ies[pos + 1]..]))
  {
    hide TwoLists;
    var b := ies[pos..];
    if |b| >= 2 && 2 + b[1] <= |b| {
      assert b[2 + b[1]..] == ies[pos + 2 + ies[pos + 1]..];
      if b[1] >= 1 {
        assert b[3..2 + b[1]] == ies[pos + 3..pos + 2 + ies[pos + 1]];
      }
    }
  }

  method ValidateProfileIes(ies: Bytes) returns (ok: bool)
    ensures ok == ValidIes(ies)
  {
    hide ValidIes;
    var pos := 0;
    assert ies[0..] == ies;
    while pos < |ies|
      invariant 0 <= pos <= |ies|
      invariant ValidIes(ies) == ValidIes(ies[pos..])
      decreases |ies| - pos
    {
      ValidAt(ies, pos);
      if |ies| - pos < 2 {
        return false;
      }
      var len := ies[pos + 1];
      var end := pos + 2 + len;
      if end > |ies| {
        return false;
      }
      if ies[pos] == EXTENSION && len >= 1 && ies[pos + 2] == NON_INHERITANCE {
        var payload := ies[pos + 3..end];
        if payload == [] {
          return false;
        }
        var second: nat := 1 + payload[0] as int;
        if second >= |payload| {
          return false;
        }
        if second + 1 + payload[second] as int != |payload| {
          return false;
        }
      }
      pos := end;
    }
    NoIesValid();
    assert ies[pos..] == [];
    ok := true;
  }

  lemma {:induction false} NoIesValid()
    ensures ValidIes([])
  {
  }

  // The identifiers one link reports and the other does not have.
  function Missing(reporting: Bytes, reported: Bytes): (m: Bytes)
    ensures |m| <= |reporting|
  {
    if reporting == [] then []
    else if reporting[0] in reported then Missing(reporting[1..], reported)
    else [reporting[0]] + Missing(reporting[1..], reported)
  }

  function NonInheritance(base: Bytes, ext: Bytes): Bytes
    requires 3 + |base| + |ext| <= 255
  {
    if base == [] && ext == [] then []
    else [EXTENSION, 3 + |base| + |ext|, NON_INHERITANCE, |base|] + base + [|ext|] + ext
  }

  // Exactly what would wrongly be inherited is listed.
  lemma {:induction false} MissingIff(reporting: Bytes, reported: Bytes, id: byte)
    ensures id in Missing(reporting, reported) <==> id in reporting && id !in reported
  {
    if reporting != [] {
      MissingIff(reporting[1..], reported, id);
      assert reporting == [reporting[0]] + reporting[1..];
    }
  }

  predicate PlainIes(es: seq<Element>) {
    Sendable(es) && forall e :: e in es ==> !(e.id == EXTENSION && |e.body| >= 1 && e.body[0] == NON_INHERITANCE)
  }

  lemma {:induction false} NonInheritanceValid(base: Bytes, ext: Bytes)
    requires 3 + |base| + |ext| <= 255
    ensures ValidIes(NonInheritance(base, ext))
  {
    if base != [] || ext != [] {
      var b := NonInheritance(base, ext);
      var p := b[3..2 + b[1]];
      assert b[0] == EXTENSION && b[1] == 3 + |base| + |ext| && b[2] == NON_INHERITANCE && |b| == 5 + |base| + |ext|;
      assert p[0] == |base| && |p| == 2 + |base| + |ext|;
      assert p[1 + |base|] == b[4 + |base|] == |ext|;
      assert b[2 + b[1]..] == [];
    }
  }

  lemma {:induction false} ValidCons(e: Element, rest: Bytes)
    requires PlainIes([e]) && ValidIes(rest)
    ensures ValidIes([e.id, |e.body|] + e.body + rest)
  {
    assert e in [e];
    var b: Bytes := [e.id, |e.body|] + e.body + rest;
    assert b[0] == e.id && b[1] == |e.body| && b[2 + b[1]..] == rest;
    if |e.body| >= 1 {
      assert b[2] == e.body[0];
    }
  }

  lemma {:induction false} EncodeNone()
    ensures Encode([]) == []
  {
  }

  lemma {:induction false} ValidThen(es: seq<Element>, last: Bytes)
    requires PlainIes(es) && ValidIes(last)
    ensures ValidIes(Encode(es) + last)
  {
    hide ValidIes, Encode;
    if es == [] {
      EncodeNone();
      assert [] + last == last;
    } else {
      ValidThen(es[1..], last);
      ValidCons(es[0], Encode(es[1..]) + last);
      EncodeCons(es[0], es[1..]);
      assert es == [es[0]] + es[1..];
      var head: Bytes := [es[0].id, |es[0].body|] + es[0].body;
      assert Encode(es) + last == head + (Encode(es[1..]) + last);
    }
  }

  // A profile of ordinary elements, with or without the builder's Non-Inheritance element at
  // its end, is one the strict parser accepts.
  lemma {:induction false} BuiltIesValid(es: seq<Element>, base: Bytes, ext: Bytes)
    requires PlainIes(es) && 3 + |base| + |ext| <= 255
    ensures ValidIes(Encode(es)) && ValidIes(Encode(es) + NonInheritance(base, ext))
  {
    hide Encode;
    NonInheritanceValid(base, ext);
    ValidThen(es, []);
    ValidThen(es, NonInheritance(base, ext));
    assert Encode(es) + [] == Encode(es);
  }

  // ---- profiles --------------------------------------------------------------------------------------

  datatype Profile = Profile(linkId: LinkId, mac: Octets6, capability: u16, ies: Bytes)

  // Link id, complete profile, MAC, beacon interval, TSF offset and DTIM present; in an
  // association response also the change count.
  function StaControl(linkId: LinkId, change: Option<byte>): u16 {
    linkId + 16 + 32 + 64 + 128 + 256 + (if change.Some? then 2048 else 0)
  }

  function StaInfoLength(change: Option<byte>): byte {
    if change.Some? then 20 else 19
  }

  function StaInfo(mac: Octets6, change: Option<byte>): (b: Bytes)
    ensures |b| == StaInfoLength(change) - 1
  {
    mac + [BEACON_INTERVAL_TU, 0] + Zeros(8) + [0, 2] + (if change.Some? then [change.value] else [])
  }

  function ProfileBody(p: Profile, change: Option<byte>): (b: Bytes)
    ensures |b| == 4 + StaInfoLength(change) + |p.ies|
  {
    var control := StaControl(p.linkId, change);
    [Low(control), High(control), StaInfoLength(change)] + StaInfo(p.mac, change)
    + [Low(p.capability), High(p.capability)] + p.ies
  }

  function PerStaProfile(p: Profile, change: Option<byte>): Bytes {
    Fragmented(0, ProfileBody(p, change))
  }

  function LinkInfoOf(ps: seq<Profile>, change: Option<byte>): Bytes {
    if ps == [] then [] else PerStaProfile(ps[0], change) + LinkInfoOf(ps[1..], change)
  }

  function CommonInfo(mld: Octets6, linkId: byte, change: byte, eml: u16, capability: u16): (b: Bytes)
    ensures |b| == 15
  {
    [0xb0, 0x01, 13] + mld + [linkId % 16, change] + [Low(eml), High(eml)] + [Low(capability), High(capability)]
  }

  function BasicMultiLink(common: Bytes, linkInfo: Bytes): Bytes {
    Fragmented(EXTENSION, [MULTI_LINK] + common + linkInfo)
  }

  // ---- the strict parser ----------------------------------------------------------------------------------

  function ReadProfile(sub: Bytes): Option<Profile> {
    if |sub| < 3 then None else
      var control := Word(sub[0], sub[1]);
      var infoLength := sub[2];
      if (control / 16) % 2 == 0 || (control / 32) % 2 == 0 || infoLength < 7 || 2 + infoLength > |sub| then None
      else
        var profile := sub[2 + infoLength..];
        if |profile| < 2 || !ValidIes(profile[2..]) then None
        else Some(Profile(control % 16, sub[3..9], Word(profile[0], profile[1]), profile[2..]))
  }

  function Prepend(out: seq<Profile>, more: Option<seq<Profile>>): Option<seq<Profile>> {
    if more.None? then None else Some(out + more.value)
  }

  function ReadLinkInfo(b: Bytes): Option<seq<Profile>>
    decreases |b|
  {
    if b == [] then Some([])
    else if |b| < 2 || 2 + b[1] > |b| then None
    else
      var more := ReadLinkInfo(b[2 + b[1]..]);
      if b[0] != 0 then more else
        var p := ReadProfile(b[2..2 + b[1]]);
        if p.None? then None else Prepend([p.value], more)
  }

  predicate IsMultiLink(id: byte, body: Bytes) {
    id == EXTENSION && |body| >= 10 && body[0] == MULTI_LINK && body[1] % 8 == 0
  }

  // The element after its extension identifier.
  function ReadElement(body: Bytes): Option<seq<Profile>>
    requires |body| >= 9
  {
    var commonLength := body[2];
    if 6 < commonLength && commonLength + 2 <= |body| then ReadLinkInfo(body[2 + commonLength..]) else None
  }

  function ReadProfiles(ies: Bytes): Option<seq<Profile>>
    decreases |ies|
  {
    if |ies| < 2 || 2 + ies[1] > |ies| then None
    else if IsMultiLink(ies[0], ies[2..2 + ies[1]]) then ReadElement(ies[3..2 + ies[1]])
    else ReadProfiles(ies[2 + ies[1]..])
  }

  lemma {:induction false} PrependNone(more: Option<seq<Profile>>)
    ensures Prepend([], more) == more
  {
    if more.Some? {
      assert [] + more.value == more.value;
    }
  }

  lemma {:induction false} PrependTwice(out: seq<Profile>, next: seq<Profile>, more: Option<seq<Profile>>)
    ensures Prepend(out, Prepend(next, more)) == Prepend(out + next, more)
  {
    if more.Some? {
      assert out + (next + more.value) == out + next + more.value;
    }
  }

  // One subelement of the walk, seen from the whole body.
  lemma {:induction false} LinkInfoAt(body: Bytes, p: nat)
    requires p < |body|
    ensures var r := ReadLinkInfo(body[p..]);
            if p + 2 > |body| || p + 2 + body[p + 1] > |body| then r.None?
            else
              var end := p + 2 + body[p + 1];
              var more := ReadLinkInfo(body[end..]);
              if body[p] != 0 then r == more else
                var first := ReadProfile(body[p + 2..end]);
                r == if first.None? then None else Prepend([first.value], more)
  {
    hide ReadProfile, Prepend;
    var b := body[p..];
    if |b| >= 2 && 2 + b[1] <= |b| {
      assert b[2..2 + b[1]] == body[p + 2..p + 2 + body[p + 1]] && b[2 + b[1]..] == body[p + 2 + body[p + 1]..];
    }
  }

  method ReadLinkInfoLoop(body: Bytes, start: nat) returns (profiles: Option<seq<Profile>>)
    requires start <= |body|
    ensures profiles == ReadLinkInfo(body[start..])
  {
    hide ReadProfile, ReadLinkInfo, Prepend;
    var out: seq<Profile> := [];
    var p := start;
    PrependNone(ReadLinkInfo(body[p..]));
    while p < |body|
      invariant start <= p <= |body|
      invariant ReadLinkInfo(body[start..]) == Prepend(out, ReadLinkInfo(body[p..]))
      decreases |body| - p
    {
      LinkInfoAt(body, p);
      NothingPrepended(out);
      if p + 2 > |body| {
        return None;
      }
      var sid, slen := body[p], body[p + 1];
      if p + 2 + slen > |body| {
        return None;
      }
      var sub := body[p + 2..p + 2 + slen];
      if sid == 0 {
        var r := ReadProfile(sub);
        if r.None? {
          return None;
        }
        PrependTwice(out, [r.value], ReadLinkInfo(body[p + 2 + slen..]));
        out := out + [r.value];
      }
      p := p + 2 + slen;
    }
    assert body[p..] == [];
    NothingFollows(out);
    profiles := Some(out);
  }

  lemma {:induction false} NothingPrepended(out: seq<Profile>)
    ensures Prepend(out, None) == None
  {
  }

  lemma {:induction false} NothingFollows(out: seq<Profile>)
    ensures Prepend(out, ReadLinkInfo([])) == Some(out)
  {
    assert out + [] == out;
  }

  // One element of the walk.
  lemma {:induction false} ProfilesAt(ies: Bytes, i: nat)
    requires i + 2 <= |ies|
    ensures var r := ReadProfiles(ies[i..]);
            if i + 2 + ies[i + 1] > |ies| then r.None?
            else
              var end := i + 2 + ies[i + 1];
              var body := ies[i + 2..end];
              r == if IsMultiLink(ies[i], body) then ReadElement(ies[i + 3..end]) else ReadProfiles(ies[end..])
  {
    hide ReadElement;
    var b := ies[i..];
    if 2 + b[1] <= |b| {
      assert b[1] >= 1 ==> b[3..2 + b[1]] == ies[i + 3..i + 2 + ies[i + 1]];
      assert b[2..2 + b[1]] == ies[i + 2..i + 2 + ies[i + 1]] && b[2 + b[1]..] == ies[i + 2 + ies[i + 1]..];
    }
  }

  method ReadElementLoop(body: Bytes) returns (profiles: Option<seq<Profile>>)
    requires |body| >= 9
    ensures profiles == ReadElement(body)
  {
    var commonLength := body[2];
    if 6 < commonLength && commonLength <= |body| - 2 {
      profiles := ReadLinkInfoLoop(body, 2 + commonLength);
    } else {
      profiles := None;
    }
  }

  method ParseLinkProfiles(ies: Bytes) returns (profiles: Option<seq<Profile>>)
    ensures profiles == ReadProfiles(ies)
  {
    var i := 0;
    assert |ies| < 2 ==> ReadProfiles(ies).None?;
    assert ies[0..] == ies;
    hide ReadProfiles, ReadElement;
    while i + 2 <= |ies|
      invariant 0 <= i <= |ies|
      invariant ReadProfiles(ies) == ReadProfiles(ies[i..])
      decreases |ies| - i
    {
      ProfilesAt(ies, i);
      var len := ies[i + 1];
      if i + 2 + len > |ies| {
        return None;
      }
      if ies[i] == EXTENSION && len >= 1 + 2 + 1 + 6 && ies[i + 2] == MULTI_LINK {
        var body := ies[i + 3..i + 2 + len];
        if body[0] % 8 == 0 {
          profiles := ReadElementLoop(body);
          return;
        }
      }
      i := i + 2 + len;
    }
    TooShort(ies[i..]);
    profiles := None;
  }

  lemma {:induction false} TooShort(b: Bytes)
    requires |b| < 2
    ensures ReadProfiles(b).None?
  {
  }

  // ---- what the parser makes of a built element ---------------------------------------------------------------

  lemma {:induction false} ControlReads(linkId: LinkId, change: Option<byte>)
    ensures var c := StaControl(linkId, change);
            c % 16 == linkId && (c / 16) % 2 == 1 && (c / 32) % 2 == 1 && Word(Low(c), High(c)) == c
  {
  }

  lemma {:induction false} ProfileParts(p: Profile, change: Option<byte>)
    ensures var b := ProfileBody(p, change);
            var c := StaControl(p.linkId, change);
            && b[0] == Low(c) && b[1] == High(c) && b[2] == StaInfoLength(change) && b[3..9] == p.mac
            && b[2 + StaInfoLength(change)..] == [Low(p.capability), High(p.capability)] + p.ies
  {
    var c := StaControl(p.linkId, change);
    var head: Bytes := [Low(c), High(c), StaInfoLength(change)];
    var rest: Bytes := [Low(p.capability), High(p.capability)] + p.ies;
    var info := StaInfo(p.mac, change);
    var b := ProfileBody(p, change);
    assert b == head + info + rest;
    assert info[..6] == p.mac;
    assert b[3..9] == info[..6];
  }

  // A built profile reads back as itself exactly when its elements are well formed.
  lemma {:induction false} ProfileReadsIff(p: Profile, change: Option<byte>)
    ensures ReadProfile(ProfileBody(p, change)) == if ValidIes(p.ies) then Some(p) else None
  {
    hide ValidIes, ProfileBody, StaControl, Word;
    ProfileParts(p, change);
    ControlReads(p.linkId, change);
    var profile: Bytes := [Low(p.capability), High(p.capability)] + p.ies;
    assert profile[2..] == p.ies;
    WordReads(p.capability);
  }

  lemma {:induction false} WordReads(n: u16)
    ensures Word(Low(n), High(n)) == n
  {
  }

  predicate WellFormed(ps: seq<Profile>) {
    forall p :: p in ps ==> ValidIes(p.ies)
  }

  // The profiles that lie whole within the first n octets, when the cut falls between two.
  function Cut(ps: seq<Profile>, change: Option<byte>, n: nat): Option<seq<Profile>> {
    if ps == [] || n == 0 then Some([])
    else
      var size := |PerStaProfile(ps[0], change)|;
      if n < size then None else Prepend([ps[0]], Cut(ps[1..], change, n - size))
  }

  const ROOM: nat := 239

  lemma {:induction false} CutFirst(p: Profile, change: Option<byte>, b: Bytes)
    requires ValidIes(p.ies) && 0 < |b| <= ROOM
    requires b <= PerStaProfile(p, change) && b != PerStaProfile(p, change)
    ensures ReadLinkInfo(b).None?
  {
    hide ProfileBody;
    var body := ProfileBody(p, change);
    assert |b| >= 2 ==> b[1] == Min(|body|, 255);
  }

  lemma {:induction false} ReadFirst(p: Profile, change: Option<byte>, rest: Bytes)
    requires ValidIes(p.ies) && |PerStaProfile(p, change)| <= ROOM
    ensures ReadLinkInfo(PerStaProfile(p, change) + rest) == Prepend([p], ReadLinkInfo(rest))
  {
    hide ProfileBody, ReadProfile, ValidIes;
    var body := ProfileBody(p, change);
    var b := PerStaProfile(p, change) + rest;
    ProfileReadsIff(p, change);
    FragmentedLonger(0, body);
    assert b[0] == 0 && b[1] == |body| && b[2..2 + b[1]] == body && b[2 + b[1]..] == rest;
  }

  lemma {:induction false} FragmentedLonger(id: byte, body: Bytes)
    ensures |Fragmented(id, body)| > |body|
  {
    if |body| > 255 {
      FragmentsLonger(body[255..]);
    }
  }

  lemma {:induction false} FragmentsLonger(rest: Bytes)
    ensures |Fragments(rest)| > |rest|
  {
    if |rest| >= 255 {
      FragmentsLonger(rest[255..]);
    }
  }

  lemma {:induction false} LinkInfoReads(ps: seq<Profile>, change: Option<byte>, n: nat)
    requires WellFormed(ps) && n <= |LinkInfoOf(ps, change)| && n <= ROOM
    ensures ReadLinkInfo(LinkInfoOf(ps, change)[..n]) == Cut(ps, change, n)
  {
    hide PerStaProfile, ValidIes, ReadLinkInfo;
    if n == 0 {
      NothingReads();
    } else if ps != [] {
      var first, rest := PerStaProfile(ps[0], change), LinkInfoOf(ps[1..], change);
      var all := first + rest;
      assert ps[0] in ps && WellFormed(ps[1..]);
      if n < |first| {
        assert all[..n] == first[..n];
        CutFirst(ps[0], change, first[..n]);
      } else {
        assert all[..n] == first + rest[..n - |first|];
        ReadFirst(ps[0], change, rest[..n - |first|]);
        LinkInfoReads(ps[1..], change, n - |first|);
      }
    }
  }

  lemma {:induction false} NothingReads()
    ensures ReadLinkInfo([]) == Some([])
  {
  }

  // Elements before the Multi-Link element that the parser passes over.
  predicate NoMultiLink(es: seq<Element>) {
    Sendable(es) && forall e :: e in es ==> !IsMultiLink(e.id, e.body)
  }

  lemma {:induction false} SkipsOthers(es: seq<Element>, rest: Bytes)
    requires NoMultiLink(es)
    ensures ReadProfiles(Encode(es) + rest) == ReadProfiles(rest)
  {
    hide IsMultiLink, Encode, ReadElement;
    if es == [] {
      EncodeNone();
      assert [] + rest == rest;
    } else {
      SkipsOthers(es[1..], rest);
      EncodeCons(es[0], es[1..]);
      assert es == [es[0]] + es[1..] && es[0] in es;
      var tail := Encode(es[1..]) + rest;
      var b := Encode(es) + rest;
      var head: Bytes := [es[0].id, |es[0].body|] + es[0].body;
      assert b == head + tail;
      assert b[0] == es[0].id && b[1] == |es[0].body| && b[2..2 + b[1]] == es[0].body && b[2 + b[1]..] == tail;
    }
  }

  // The first 255 octets of the element's body are all that the parser looks at.
  lemma {:induction false} FirstPiece(id: byte, body: Bytes, after: Bytes)
    ensures var b := Fragmented(id, body) + after;
            var n := Min(|body|, 255);
            |b| >= 2 + n && b[0] == id && b[1] == n && b[2..2 + b[1]] == body[..n]
  {
    hide Fragments;
    if |body| > 255 {
      var tail := Fragments(body[255..]) + after;
      var head: Bytes := [id, 255];
      assert Fragmented(id, body) + after == head + body[..255] + tail;
    } else {
      var head: Bytes := [id, |body|];
      assert Fragmented(id, body) + after == head + body + after;
      assert body[..|body|] == body;
    }
  }

  lemma {:induction false} ElementReads(common: Bytes, info: Bytes)
    requires |common| == 15 && common[2] == 13
    ensures var body: Bytes := [MULTI_LINK] + common + info;
            var n := Min(|body|, 255);
            && body[0] == MULTI_LINK && body[1] == common[0] && n >= 10
            && ReadElement(body[1..n]) == ReadLinkInfo(info[..Min(|info|, ROOM)])
  {
    hide ReadLinkInfo;
    var body: Bytes := [MULTI_LINK] + common + info;
    var n := Min(|body|, 255);
    assert body[1..n][15..] == info[..Min(|info|, ROOM)];
    assert body[1..n][2] == common[2];
  }

  // The built element, among other elements: the parser returns the profiles that lie whole
  // within the element's first piece, and nothing if a profile is cut.
  lemma {:induction false} ParsesBuilt(
    es: seq<Element>, mld: Octets6, linkId: byte, changeCount: byte, eml: u16, capability: u16,
    ps: seq<Profile>, change: Option<byte>, after: Bytes)
    requires NoMultiLink(es) && WellFormed(ps)
    ensures var info := LinkInfoOf(ps, change);
            ReadProfiles(Encode(es) + BasicMultiLink(CommonInfo(mld, linkId, changeCount, eml, capability), info) + after)
            == Cut(ps, change, Min(|info|, ROOM))
  {
    hide LinkInfoOf, Encode, Fragmented, ReadElement, Cut, WellFormed;
    var info := LinkInfoOf(ps, change);
    var common := CommonInfo(mld, linkId, changeCount, eml, capability);
    assert common[0] == 0xb0 && common[2] == 13;
    var body: Bytes := [MULTI_LINK] + common + info;
    var element := BasicMultiLink(common, info);
    var n := Min(|body|, 255);
    SkipsOthers(es, element + after);
    assert Encode(es) + element + after == Encode(es) + (element + after);
    FirstPiece(EXTENSION, body, after);
    ElementReads(common, info);
    assert body[..n][0] == MULTI_LINK && body[..n][1] == 0xb0;
    LinkInfoReads(ps, change, Min(|info|, ROOM));
  }

  lemma {:induction false} ProfileTakesRoom(p: Profile, change: Option<byte>)
    ensures |PerStaProfile(p, change)| > 0
  {
    FragmentedLonger(0, ProfileBody(p, change));
  }

  lemma {:induction false} CutWhole(ps: seq<Profile>, change: Option<byte>, n: nat)
    requires n <= |LinkInfoOf(ps, change)|
    ensures Cut(ps, change, n) == Some(ps) <==> n == |LinkInfoOf(ps, change)|
    ensures Cut(ps, change, n).Some? ==>
              Cut(ps, change, n).value <= ps && |LinkInfoOf(Cut(ps, change, n).value, change)| == n
  {
    hide PerStaProfile;
    if ps != [] && n > 0 {
      var size := |PerStaProfile(ps[0], change)|;
      if n >= size {
        CutWhole(ps[1..], change, n - size);
        assert ps == [ps[0]] + ps[1..];
        var more := Cut(ps[1..], change, n - size);
        if more.Some? {
          assert ([ps[0]] + more.value)[1..] == more.value;
        }
      }
    } else if ps != [] {
      ProfileTakesRoom(ps[0], change);
    }
  }

  // A cut at the end of the first k profiles leaves those, and no other cut does.
  lemma {:induction false} CutBetween(ps: seq<Profile>, change: Option<byte>, k: nat, n: nat)
    requires k <= |ps| && n <= |LinkInfoOf(ps, change)|
    ensures Cut(ps, change, n) == Some(ps[..k]) <==> |LinkInfoOf(ps[..k], change)| == n
  {
    hide PerStaProfile;
    if k > 0 {
      ProfileTakesRoom(ps[0], change);
      assert ps[..k][0] == ps[0] && ps[..k][1..] == ps[1..][..k - 1];
      var size := |PerStaProfile(ps[0], change)|;
      if n >= size {
        CutBetween(ps[1..], change, k - 1, n - size);
        var more := Cut(ps[1..], change, n - size);
        assert ps[..k] == [ps[0]] + ps[1..][..k - 1];
        if more.Some? {
          assert ([ps[0]] + more.value)[1..] == more.value;
        }
      }
    } else if ps != [] && n > 0 {
      CutWhole(ps, change, n);
    }
  }

  // The strict parser returns exactly the list that was built if and only if it fits in one
  // element. A longer list is refused, or, when the first piece ends between two profiles,
  // shortened to those before the cut; no profile is ever altered.
  lemma {:induction false} ParsesBackIff(
    es: seq<Element>, mld: Octets6, linkId: byte, changeCount: byte, eml: u16, capability: u16,
    ps: seq<Profile>, change: Option<byte>, after: Bytes)
    requires NoMultiLink(es) && WellFormed(ps)
    ensures var info := LinkInfoOf(ps, change);
            var got := ReadProfiles(
              Encode(es) + BasicMultiLink(CommonInfo(mld, linkId, changeCount, eml, capability), info) + after);
            && (got == Some(ps) <==> |info| <= ROOM)
            && (|info| > ROOM ==>
                  && (got.Some? ==> got.value < ps)
                  && forall k :: 0 <= k <= |ps| ==> (got == Some(ps[..k]) <==> |LinkInfoOf(ps[..k], change)| == ROOM))
  {
    hide LinkInfoOf, Encode, BasicMultiLink, CommonInfo, ReadProfiles, Cut, WellFormed, NoMultiLink;
    var info := LinkInfoOf(ps, change);
    ParsesBuilt(es, mld, linkId, changeCount, eml, capability, ps, change, after);
    CutWhole(ps, change, Min(|info|, ROOM));
    if |info| > ROOM {
      var got := Cut(ps, change, ROOM);
      assert got != Some(ps) && ps[..|ps|] == ps;
      assert got.Some? ==> got.value == ps[..|got.value|] && got.value != ps;
      forall k | 0 <= k <= |ps| ensures Cut(ps, change, ROOM) == Some(ps[..k]) <==> |LinkInfoOf(ps[..k], change)| == ROOM {
        CutBetween(ps, change, k, ROOM);
      }
    }
  }

  // A profile of one ordinary element that takes exactly the room of the first piece.
  function RoomyProfile(linkId: LinkId, mac: Octets6, capability: u16, change: Option<byte>): Profile {
    var n: byte := if change.Some? then 211 else 212;
    var head: Bytes := [1, n];
    Profile(linkId, mac, capability, head + Zeros(n))
  }

  lemma {:induction false} RoomyIsRoomy(linkId: LinkId, mac: Octets6, capability: u16, change: Option<byte>)
    ensures var p := RoomyProfile(linkId, mac, capability, change); WellFormed([p]) && |PerStaProfile(p, change)| == ROOM
  {
    hide ProfileBody;
    var p := RoomyProfile(linkId, mac, capability, change);
    assert |p.ies| == 2 + p.ies[1] && p.ies[0] == 1 && p.ies[2 + p.ies[1]..] == [];
    assert ValidIes(p.ies) by {
      NoIesValid();
    }
  }

  // The silent case occurs: with such a profile first, every other one is lost unnoticed.
  lemma {:induction false} ProfilesLostSilently(
    mld: Octets6, linkId: byte, changeCount: byte, eml: u16, capability: u16, p: Profile, ps: seq<Profile>, change: Option<byte>)
    requires p == RoomyProfile(p.linkId, p.mac, p.capability, change) && ps != [] && WellFormed(ps)
    ensures ReadProfiles(BasicMultiLink(CommonInfo(mld, linkId, changeCount, eml, capability), LinkInfoOf([p] + ps, change)))
            == Some([p])
  {
    var all := [p] + ps;
    RoomyIsRoomy(p.linkId, p.mac, p.capability, change);
    assert WellFormed(all);
    assert all[1..] == ps && all[..1] == [p] && [p][1..] == [];
    ProfileTakesRoom(ps[0], change);
    hide PerStaProfile, RoomyProfile, ReadProfiles, BasicMultiLink, CommonInfo;
    assert |LinkInfoOf(all, change)| > ROOM;
    assert |LinkInfoOf([p], change)| == ROOM;
    EncodeNone();
    ParsesBackIff([], mld, linkId, changeCount, eml, capability, all, change, []);
    var element := BasicMultiLink(CommonInfo(mld, linkId, changeCount, eml, capability), LinkInfoOf(all, change));
    assert Encode([]) + element + [] == element;
  }
}
