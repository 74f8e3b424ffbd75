/** The console's DER writer, its length reader and modulus scanner (sections 8.1.3, 8.19 and 10.1 of X.690). */
module Der {
  import opened Domain

  type byte = x: int | 0 <= x < 256

  type Bytes = seq<byte>

  // ---------------------------------------------------------------- definite lengths

  /** Big-endian base 256, without leading zeros. */
  function Base256(n: nat): (r: Bytes)
    ensures n > 0 ==> |r| > 0 && r[0] != 0
    ensures n == 0 ==> r == []
  {
    if n == 0 then [] else Base256(n / 256) + [n % 256]
  }

  function DerLength(n: nat): (r: Bytes) {
    if n < 0x80 then [n] else [(0x80 + |Base256(n)|) % 256] + Base256(n)
  }

  /** The writer's loop; the length octet is truncated to a byte as the array of bytes does. */
  method EncodeLength(length: nat) returns (octets: Bytes)
    ensures octets == DerLength(length)
  {
    if length < 0x80 { return [length]; }
    var bytes: Bytes := [];
    var remaining := length;
    while remaining > 0
      invariant Base256(remaining) + bytes == Base256(length)
    {
      assert Base256(remaining) + bytes == Base256(remaining / 256) + ([remaining % 256] + bytes);
      bytes := [remaining % 256] + bytes;
      remaining := remaining / 256;
    }
    octets := [(0x80 + |bytes|) % 256] + bytes;
  }

  /** Conversion to a signed 32-bit integer, as every bitwise operator of the console's reader applies it. */
  function ToInt32(n: int): (r: int)
    ensures -0x8000_0000 <= r < 0x8000_0000
  {
    var m := n % 0x1_0000_0000;
    if m >= 0x8000_0000 then m - 0x1_0000_0000 else m
  }

  /** `(length << 8) | b`: the shifted value has its low octet free. */
  function ShiftIn(length: int, b: byte): int {
    ToInt32(length * 256) + b
  }

  function Shifted(bytes: Bytes): int {
    if bytes == [] then 0 else ShiftIn(Shifted(bytes[..|bytes| - 1]), bytes[|bytes| - 1])
  }

  datatype Header = Header(length: int, next: nat)

  /** What the reader makes of the octets at an offset. */
  function ReadLength(der: Bytes, at: nat): Option<Header> {
    if at >= |der| then None
    else if der[at] < 0x80 then Some(Header(der[at], at + 1))
    else
      var count := der[at] - 0x80;
      if count == 0 || count > 4 || at + count >= |der| then None
      else Some(Header(Shifted(der[at + 1..at + 1 + count]), at + 1 + count))
  }

  method DecodeLength(der: Bytes, at: nat) returns (header: Option<Header>)
    ensures header == ReadLength(der, at)
  {
    if at >= |der| { return None; }
    var first := der[at];
    if first < 0x80 { return Some(Header(first, at + 1)); }
    var count := first - 0x80;
    if count == 0 || count > 4 || at + count >= |der| { return None; }
    var length, i := 0, 1;
    while i <= count
      invariant 1 <= i <= count + 1
      invariant length == Shifted(der[at + 1..at + i])
    {
      assert der[at + 1..at + i + 1][..i - 1] == der[at + 1..at + i];
      length := ShiftIn(length, der[at + i]);
      i := i + 1;
    }
    header := Some(Header(length, at + 1 + count));
  }

  // ---------------------------------------------------------------- reading what was written

  function Power(n: nat): (r: nat)
    ensures r >= 1
  {
    if n == 0 then 1 else 256 * Power(n - 1)
  }

  lemma {:induction false} Base256Size(n: nat, k: nat)
    ensures n < Power(k) <==> |Base256(n)| <= k
    decreases n
  {
    if n > 0 {
      if k == 0 {
      } else {
        Base256Size(n / 256, k - 1);
      }
    }
  }

  lemma ToInt32Small(m: nat)
    requires m < 0x1_0000_0000
    ensures ToInt32(m) == if m < 0x8000_0000 then m else m - 0x1_0000_0000
  {
  }

  lemma Base256Last(n: nat)
    requires n > 0
    ensures Base256(n)[..|Base256(n)| - 1] == Base256(n / 256) && Base256(n)[|Base256(n)| - 1] == n % 256
    ensures n == n / 256 * 256 + n % 256
  {
  }

  /** Up to 31 bits the shifts do not wrap. */
  lemma {:induction false} ShiftedIsValue(n: nat)
    requires n < 0x8000_0000
    ensures Shifted(Base256(n)) == n
    decreases n
  {
    if n > 0 {
      ShiftedIsValue(n / 256);
      Base256Last(n);
      ToInt32Small(n / 256 * 256);
      hide ToInt32, Base256;
    }
  }

  /** With 32 bits the last shift makes the sign bit of the top octet. */
  lemma ShiftedWraps(n: nat)
    requires 0x8000_0000 <= n < 0x1_0000_0000
    ensures Shifted(Base256(n)) == n - 0x1_0000_0000
  {
    hide ToInt32, Base256;
    ShiftedIsValue(n / 256);
    Base256Last(n);
    ToInt32Small(n / 256 * 256);
  }

  lemma Powers()
    ensures Power(1) == 0x100 && Power(3) == 0x100_0000 && Power(4) == 0x1_0000_0000
  {
    assert Power(2) == 256 * Power(1);
    assert Power(3) == 256 * Power(2);
    assert Power(4) == 256 * Power(3);
  }

  lemma HeaderIsFound(n: nat, before: Bytes, after: Bytes)
    requires 0x80 <= n < Power(127)
    ensures ReadLength(before + DerLength(n) + after, |before|)
            == if |Base256(n)| > 4 then None else Some(Header(Shifted(Base256(n)), |before| + 1 + |Base256(n)|))
  {
    hide ReadLength, Shifted, Power, Base256;
    Base256Size(n, 127);
    var der, octets := before + DerLength(n) + after, Base256(n);
    HeaderOctets(n, before, after);
    OctetsAreRead(der, |before|, octets);
  }

  lemma HeaderOctets(n: nat, before: Bytes, after: Bytes)
    requires n >= 0x80 && |Base256(n)| < 0x80
    ensures var der := before + DerLength(n) + after;
            && |before| + 1 + |Base256(n)| <= |der| && der[|before|] == 0x80 + |Base256(n)|
            && der[|before| + 1..|before| + 1 + |Base256(n)|] == Base256(n)
  {
    hide Base256;
  }

  lemma OctetsAreRead(der: Bytes, at: nat, octets: Bytes)
    requires 0 < |octets| < 0x80 && at + 1 + |octets| <= |der|
    requires der[at] == 0x80 + |octets| && der[at + 1..at + 1 + |octets|] == octets
    ensures ReadLength(der, at) == if |octets| > 4 then None else Some(Header(Shifted(octets), at + 1 + |octets|))
  {
    hide Shifted;
  }

  /** Reading a written length gives it back exactly when it is below 2^31; octets are minimal. */
  lemma LengthRoundTrip(n: nat, before: Bytes, after: Bytes)
    requires n < Power(127)
    ensures var header := ReadLength(before + DerLength(n) + after, |before|);
            && (header == Some(Header(n, |before| + |DerLength(n)|)) <==> n < 0x8000_0000)
            && (0x8000_0000 <= n < 0x1_0000_0000 ==> header == Some(Header(n - 0x1_0000_0000, |before| + 5)))
            && (n >= 0x1_0000_0000 ==> header == None)
    ensures n >= 0x80 ==> DerLength(n)[1] != 0 && |DerLength(n)| == 1 + |Base256(n)|
  {
    hide ReadLength, Shifted, Base256, Power;
    if n < 0x80 {
      ShortIsFound(n, before, after);
    } else {
      HeaderIsFound(n, before, after);
      LengthSizes(n);
      if n < 0x8000_0000 { ShiftedIsValue(n); }
      else if n < 0x1_0000_0000 { ShiftedWraps(n); }
    }
  }

  lemma ShortIsFound(n: nat, before: Bytes, after: Bytes)
    requires n < 0x80
    ensures ReadLength(before + DerLength(n) + after, |before|) == Some(Header(n, |before| + 1)) && |DerLength(n)| == 1
  {
    hide Base256, Shifted;
    assert (before + DerLength(n) + after)[|before|] == n;
  }

  lemma LengthSizes(n: nat)
    requires n > 0
    ensures |Base256(n)| > 4 <==> n >= 0x1_0000_0000
    ensures n >= 0x100_0000 ==> |Base256(n)| >= 4
    ensures Base256(n)[0] != 0
  {
    Powers();
    Base256Size(n, 4);
    Base256Size(n, 3);
  }

  // ---------------------------------------------------------------- trees

  /** A value is constructed exactly when bit 6 of its tag says so. */
  datatype Tree = Primitive(tag: byte, content: Bytes) | Constructed(tag: byte, children: seq<Tree>)

  predicate IsConstructed(tag: byte) {
    (tag / 0x20) % 2 == 1
  }

  function Tlv(tag: byte, content: Bytes): Bytes {
    [tag] + DerLength(|content|) + content
  }

  function Write(tree: Tree): Bytes
    decreases tree, 0
  {
    match tree
    case Primitive(tag, content) => Tlv(tag, content)
    case Constructed(tag, children) => Tlv(tag, WriteAll(children))
  }

  function WriteAll(trees: seq<Tree>): Bytes
    decreases trees, 1
  {
    if trees == [] then [] else Write(trees[0]) + WriteAll(trees[1..])
  }

  /** `concatBytes`: one buffer of the summed length, each part copied behind the last. */
  function Concat(parts: seq<Bytes>): Bytes {
    if parts == [] then [] else parts[0] + Concat(parts[1..])
  }

  lemma {:induction false} ConcatSplits(a: seq<Bytes>, b: seq<Bytes>)
    ensures Concat(a + b) == Concat(a) + Concat(b)
    decreases |a|
  {
    if a == [] {
      assert a + b == b;
    } else {
      assert (a + b)[0] == a[0] && (a + b)[1..] == a[1..] + b;
      ConcatSplits(a[1..], b);
    }
  }

  method ConcatBytes(parts: seq<Bytes>) returns (out: array<byte>)
    ensures fresh(out) && out[..] == Concat(parts)
  {
    var size, i := 0, 0;
    while i < |parts|
      invariant 0 <= i <= |parts| && size == |Concat(parts[..i])|
    {
      ConcatSplits(parts[..i], [parts[i]]);
      assert parts[..i + 1] == parts[..i] + [parts[i]];
      assert Concat([parts[i]]) == parts[i] + Concat([]);
      size := size + |parts[i]|;
      i := i + 1;
    }
    assert parts[..i] == parts;
    out := new byte[size];
    var offset := 0;
    i := 0;
    while i < |parts|
      invariant 0 <= i <= |parts| && offset == |Concat(parts[..i])| && offset + |Concat(parts[i..])| == size == out.Length
      invariant out[..offset] == Concat(parts[..i])
    {
      assert parts[i..][0] == parts[i] && parts[i..][1..] == parts[i + 1..];
      ConcatSplits(parts[..i], [parts[i]]);
      assert parts[..i + 1] == parts[..i] + [parts[i]];
      assert Concat([parts[i]]) == parts[i] + Concat([]);
      var part := parts[i];
      ghost var done := out[..offset];
      forall k | 0 <= k < |part| { out[offset + k] := part[k]; }
      assert out[..offset + |part|] == done + part;
      offset := offset + |part|;
      i := i + 1;
    }
    assert parts[..i] == parts;
    assert out[..] == out[..offset];
  }

  /** A tree whose tags fit and whose contents stay below 2^31 octets. */
  ghost predicate Valid(tree: Tree)
    decreases tree, 0
  {
    match tree
    case Primitive(tag, content) => !IsConstructed(tag) && |content| < 0x8000_0000
    case Constructed(tag, children) => IsConstructed(tag) && AllValid(children) && |WriteAll(children)| < 0x8000_0000
  }

  ghost predicate AllValid(trees: seq<Tree>)
    decreases trees, 1
  {
    trees == [] || (Valid(trees[0]) && AllValid(trees[1..]))
  }

  /** Reads values until the octets run out, descending into constructed ones. */
  function ReadAll(der: Bytes): Option<seq<Tree>>
    decreases |der|
  {
    if der == [] then Some([])
    else
      var header := ReadLength(der, 1);
      if header.None? || header.value.length < 0 || header.value.next + header.value.length > |der| then None
      else
        var end := header.value.next + header.value.length;
        var content := der[header.value.next..end];
        var rest := if end > 0 then ReadAll(der[end..]) else None;
        if rest.None? then None
        else if IsConstructed(der[0]) then
          var children := if |content| < |der| then ReadAll(content) else None;
          if children.None? then None else Some([Constructed(der[0], children.value)] + rest.value)
        else Some([Primitive(der[0], content)] + rest.value)
  }

  /** Reading back any forest written with the TLV helpers returns the same forest, at any depth. */
  lemma {:induction false} TreeRoundTrip(trees: seq<Tree>)
    requires AllValid(trees)
    ensures ReadAll(WriteAll(trees)) == Some(trees)
    decreases trees
  {
    if trees != [] {
      var tree, rest := trees[0], WriteAll(trees[1..]);
      TreeRoundTrip(trees[1..]);
      if tree.Constructed? { TreeRoundTrip(tree.children); }
      var content := if tree.Constructed? then WriteAll(tree.children) else tree.content;
      FirstIsRead(tree.tag, content, rest);
      assert trees == [tree] + trees[1..];
    }
  }

  lemma FirstIsRead(tag: byte, content: Bytes, rest: Bytes)
    requires |content| < 0x8000_0000
    ensures var der := Tlv(tag, content) + rest;
            var header := ReadLength(der, 1);
            && |der| > 0 && der[0] == tag
            && header.Some? && header.value.length == |content| && header.value.next + |content| == |Tlv(tag, content)|
            && der[header.value.next..header.value.next + |content|] == content
            && der[header.value.next + |content|..] == rest
  {
    var der := Tlv(tag, content) + rest;
    assert der == [tag] + DerLength(|content|) + (content + rest);
    Power127();
    LengthRoundTrip(|content|, [tag], content + rest);
    hide ReadLength, DerLength;
    assert der[1 + |DerLength(|content|)|..] == content + rest;
  }

  lemma Power127()
    ensures Power(127) > 0x1_0000_0000
  {
    Powers();
    PowerGrows(4, 127);
  }

  lemma {:induction false} PowerGrows(j: nat, k: nat)
    requires j < k
    ensures Power(j) < Power(k)
    decreases k
  {
    if j < k - 1 { PowerGrows(j, k - 1); }
  }

  // ---------------------------------------------------------------- object identifiers

  /** The leading groups of seven bits, each flagged as continued. */
  function Continued(n: nat): Bytes {
    if n == 0 then [] else Continued(n / 128) + [n % 128 + 0x80]
  }

  function Group(arc: nat): Bytes {
    Continued(arc / 128) + [arc % 128]
  }

  function Groups(arcs: seq<nat>): Bytes {
    if arcs == [] then [] else Group(arcs[0]) + Groups(arcs[1..])
  }

  function ArcAt(arcs: seq<nat>, i: nat): nat {
    if i < |arcs| then arcs[i] else 0
  }

  /** The first two arcs are folded into one octet, truncated to a byte; missing arcs count as zero. */
  function OidContent(arcs: seq<nat>): Bytes {
    [(ArcAt(arcs, 0) * 40 + ArcAt(arcs, 1)) % 256] + Groups(if |arcs| > 2 then arcs[2..] else [])
  }

  lemma NextGroup(arcs: seq<nat>, i: nat, bytes: Bytes)
    requires 2 <= i < |arcs|
    ensures bytes + Groups(arcs[i..]) == bytes + Group(arcs[i]) + Groups(if i + 1 < |arcs| then arcs[i + 1..] else [])
  {
    hide Group;
    assert arcs[i..][0] == arcs[i] && arcs[i..][1..] == arcs[i + 1..];
    assert i + 1 == |arcs| ==> arcs[i + 1..] == [];
  }

  method EncodeOid(arcs: seq<nat>) returns (content: Bytes)
    ensures content == OidContent(arcs)
  {
    var bytes: Bytes := [(ArcAt(arcs, 0) * 40 + ArcAt(arcs, 1)) % 256];
    var i := 2;
    while i < |arcs|
      invariant 2 <= i && (|arcs| >= 2 ==> i <= |arcs|)
      invariant bytes + Groups(if i < |arcs| then arcs[i..] else []) == OidContent(arcs)
    {
      hide Groups, OidContent;
      var arc := arcs[i];
      var group: Bytes := [arc % 128];
      var remaining := arc / 128;
      while remaining > 0
        invariant Continued(remaining) + group == Group(arc)
      {
        assert Continued(remaining) + group == Continued(remaining / 128) + ([remaining % 128 + 0x80] + group);
        group := [remaining % 128 + 0x80] + group;
        remaining := remaining / 128;
      }
      NextGroup(arcs, i, bytes);
      bytes := bytes + group;
      i := i + 1;
    }
    content := bytes;
  }

  /** The subidentifiers of section 8.19: seven bits an octet, bit 8 set on all but the last. */
  function Subidentifiers(bytes: Bytes, value: nat, open: bool): Option<seq<nat>>
    decreases |bytes|
  {
    if bytes == [] then if open then None else Some([])
    else
      var next := value * 128 + bytes[0] % 128;
      if bytes[0] >= 0x80 then Subidentifiers(bytes[1..], next, true)
      else
        var rest := Subidentifiers(bytes[1..], 0, false);
        if rest.None? then None else Some([next] + rest.value)
  }

  /** The first subidentifier holds two arcs: 40 times the first, which is at most 2, plus the second. */
  function DecodeOid(bytes: Bytes): Option<seq<nat>> {
    var subidentifiers := Subidentifiers(bytes, 0, false);
    if subidentifiers.None? || subidentifiers.value == [] then None
    else
      var v := subidentifiers.value[0];
      var first := if v < 40 then 0 else if v < 80 then 1 else 2;
      Some([first, v - 40 * first] + subidentifiers.value[1..])
  }

  lemma {:induction false} ContinuedIsRead(n: nat, tail: Bytes)
    requires n > 0
    ensures Subidentifiers(Continued(n) + tail, 0, false) == Subidentifiers(tail, n, true)
    decreases n
  {
    var last: Bytes := [n % 128 + 0x80];
    assert Continued(n) + tail == Continued(n / 128) + (last + tail);
    assert (last + tail)[1..] == tail;
    if n >= 128 {
      ContinuedIsRead(n / 128, last + tail);
    } else {
      assert Continued(n / 128) + (last + tail) == last + tail;
    }
  }

  lemma GroupIsRead(arc: nat, tail: Bytes)
    ensures Subidentifiers(Group(arc) + tail, 0, false)
            == match Subidentifiers(tail, 0, false) case None => None case Some(rest) => Some([arc] + rest)
  {
    var last: Bytes := [arc % 128];
    assert Group(arc) + tail == Continued(arc / 128) + (last + tail);
    assert (last + tail)[1..] == tail;
    if arc >= 128 { ContinuedIsRead(arc / 128, last + tail); } else { assert Group(arc) + tail == last + tail; }
  }

  lemma {:induction false} GroupsAreRead(arcs: seq<nat>)
    ensures Subidentifiers(Groups(arcs), 0, false) == Some(arcs)
  {
    if arcs != [] {
      GroupIsRead(arcs[0], Groups(arcs[1..]));
      GroupsAreRead(arcs[1..]);
      assert [arcs[0]] + arcs[1..] == arcs;
    }
  }

  /** However a run of octets is entered, it holds as many subidentifiers as unflagged octets. */
  function Unflagged(bytes: Bytes): nat {
    if bytes == [] then 0 else (if bytes[0] < 0x80 then 1 else 0) + Unflagged(bytes[1..])
  }

  lemma {:induction false} SubidentifierCount(bytes: Bytes, value: nat, open: bool)
    ensures Subidentifiers(bytes, value, open).Some? ==> |Subidentifiers(bytes, value, open).value| == Unflagged(bytes)
    decreases |bytes|
  {
    if bytes != [] {
      SubidentifierCount(bytes[1..], value * 128 + bytes[0] % 128, true);
      SubidentifierCount(bytes[1..], 0, false);
    }
  }

  /** Arcs whose first two a single octet below 128 can hold. */
  predicate Foldable(arcs: seq<nat>) {
    |arcs| >= 2 && arcs[0] <= 2 && (arcs[0] < 2 ==> arcs[1] < 40) && arcs[0] * 40 + arcs[1] < 0x80
  }

  /** An object identifier decodes back exactly when its first two arcs fold into one octet below 128. */
  lemma OidRoundTrip(arcs: seq<nat>)
    ensures DecodeOid(OidContent(arcs)) == Some(arcs) <==> Foldable(arcs)
  {
    var folded := ArcAt(arcs, 0) * 40 + ArcAt(arcs, 1);
    var rest: seq<nat> := if |arcs| > 2 then arcs[2..] else [];
    hide DecodeOid, OidContent, Foldable;
    if folded % 256 < 0x80 { FoldedIsRead(arcs, folded, rest); } else { FlaggedIsNotRead(arcs, folded, rest); }
  }

  lemma FoldedIsRead(arcs: seq<nat>, folded: nat, rest: seq<nat>)
    requires folded == ArcAt(arcs, 0) * 40 + ArcAt(arcs, 1) && folded % 256 < 0x80 && rest == if |arcs| > 2 then arcs[2..] else []
    ensures DecodeOid(OidContent(arcs)) == Some(arcs) <==> Foldable(arcs)
  {
    hide Group;
    var content := OidContent(arcs);
    assert content[1..] == Groups(rest);
    GroupsAreRead(rest);
    assert Subidentifiers(content, 0, false) == Some([folded % 256] + rest);
    hide Subidentifiers, Groups;
    if |arcs| >= 2 { assert arcs == [arcs[0], arcs[1]] + rest; }
  }

  /** A flagged first octet swallows the next subidentifier, or is cut off. */
  lemma FlaggedIsNotRead(arcs: seq<nat>, folded: nat, rest: seq<nat>)
    requires folded == ArcAt(arcs, 0) * 40 + ArcAt(arcs, 1) && folded % 256 >= 0x80 && rest == if |arcs| > 2 then arcs[2..] else []
    ensures DecodeOid(OidContent(arcs)) != Some(arcs) && !Foldable(arcs)
  {
    hide Group;
    var content := OidContent(arcs);
    assert content[1..] == Groups(rest);
    GroupsAreRead(rest);
    SubidentifierCount(Groups(rest), folded % 256 % 128, true);
    SubidentifierCount(Groups(rest), 0, false);
    assert Subidentifiers(content, 0, false) == Subidentifiers(Groups(rest), folded % 256 % 128, true);
    hide Subidentifiers, Groups;
  }

  // ---------------------------------------------------------------- the modulus scanner

  const RSA_ENCRYPTION: Bytes := [0x2a, 0x86, 0x48, 0x86, 0xf7, 0x0d, 0x01, 0x01, 0x01]

  predicate OccursAt(haystack: Bytes, needle: Bytes, i: nat) {
    i + |needle| <= |haystack| && haystack[i..i + |needle|] == needle
  }

  /** The first occurrence, or -1. */
  method IndexOfSequence(haystack: Bytes, needle: Bytes) returns (index: int)
    ensures index == -1 ==> forall k: nat :: !OccursAt(haystack, needle, k)
    ensures index != -1 ==> index >= 0 && OccursAt(haystack, needle, index) && forall k: nat :: k < index ==> !OccursAt(haystack, needle, k)
  {
    var i := 0;
    while i <= |haystack| - |needle|
      invariant forall k: nat :: k < i ==> !OccursAt(haystack, needle, k)
    {
      var j := 0;
      while j < |needle| && haystack[i + j] == needle[j]
        invariant 0 <= j <= |needle| && haystack[i..i + j] == needle[..j]
      {
        assert haystack[i..i + j + 1] == haystack[i..i + j] + [haystack[i + j]];
        assert needle[..j + 1] == needle[..j] + [needle[j]];
        j := j + 1;
      }
      if j == |needle| { return i; }
      assert haystack[i..i + |needle|][j] != needle[j];
      i := i + 1;
    }
    index := -1;
  }

  function At(der: Bytes, i: nat): int {
    if i < |der| then der[i] else -1
  }

  /** The modulus length in bits, if a BIT STRING starting at the offset wraps a sequence that starts with an integer. */
  function KeyAt(der: Bytes, i: nat): Option<int> {
    var header := ReadLength(der, i + 1);
    if At(der, i) != 0x03 || header.None? || At(der, header.value.next) != 0x00 || At(der, header.value.next + 1) != 0x30 then None
    else
      var sequence := ReadLength(der, header.value.next + 2);
      if sequence.None? || At(der, sequence.value.next) != 0x02 then None
      else
        var modulus := ReadLength(der, sequence.value.next + 1);
        if modulus.None? then None
        else Some((modulus.value.length - (if At(der, modulus.value.next) == 0 then 1 else 0)) * 8)
  }

  /** The algorithm's identifier occurs here and nowhere before. */
  ghost predicate FirstOid(der: Bytes, start: nat) {
    OccursAt(der, RSA_ENCRYPTION, start) && forall k: nat :: k < start ==> !OccursAt(der, RSA_ENCRYPTION, k)
  }

  /** No offset from the first to before the second reads as a key. */
  ghost predicate Keyless(der: Bytes, start: nat, end: int) {
    forall k :: start <= k < end ==> KeyAt(der, k).None?
  }

  /** The first key at or after the offset, the last octet excepted, or nothing. */
  ghost predicate FirstKey(der: Bytes, start: nat, bits: Option<int>) {
    if bits.None? then Keyless(der, start, |der| - 1)
    else exists i: nat :: start <= i < |der| - 1 && KeyAt(der, i) == bits && Keyless(der, start, i)
  }

  /** What the scanner answers: the first key from the first identifier on; nothing if there is no identifier. */
  ghost predicate Scanned(der: Bytes, bits: Option<int>) {
    if exists start: nat :: FirstOid(der, start) then exists start: nat :: FirstOid(der, start) && FirstKey(der, start, bits)
    else bits.None?
  }

  method ModulusBits(der: Bytes) returns (bits: Option<int>)
    ensures Scanned(der, bits)
  {
    hide KeyAt, OccursAt;
    var oidAt := IndexOfSequence(der, RSA_ENCRYPTION);
    if oidAt == -1 { return None; }
    var i: nat := oidAt;
    assert FirstOid(der, i);
    while i < |der| - 1
      invariant oidAt <= i && FirstOid(der, oidAt) && Keyless(der, oidAt, i)
    {
      bits := KeyAt(der, i);
      if bits.Some? {
        assert FirstKey(der, oidAt, bits);
        return;
      }
      i := i + 1;
    }
    bits := None;
    assert FirstKey(der, oidAt, bits);
  }

  /** The octets of an RSA public key after its algorithm: a BIT STRING with a SEQUENCE of modulus and exponent. */
  function PublicKey(modulus: Bytes, exponent: Bytes): Bytes {
    Tlv(0x03, [0x00] + Tlv(0x30, Tlv(0x02, modulus) + exponent))
  }

  /** A value with the given content starts at the offset. */
  ghost predicate TlvAt(der: Bytes, i: nat, tag: byte, content: Bytes) {
    && i < |der| && der[i] == tag
    && ReadLength(der, i + 1).Some?
    && var header := ReadLength(der, i + 1).value;
       header.length == |content| && header.next + |content| <= |der| && der[header.next..header.next + |content|] == content
  }

  /** A value written inside another's content is found there. */
  lemma TlvInside(der: Bytes, i: nat, tag: byte, content: Bytes, before: Bytes, inner: byte, value: Bytes, after: Bytes)
    requires TlvAt(der, i, tag, content) && content == before + Tlv(inner, value) + after && |value| < 0x8000_0000
    ensures TlvAt(der, ReadLength(der, i + 1).value.next + |before|, inner, value)
    ensures der[ReadLength(der, i + 1).value.next..][..|before|] == before
  {
    hide ReadLength, Tlv;
    var next := ReadLength(der, i + 1).value.next;
    var rest := der[next + |content|..];
    assert der == der[..next] + content + rest;
    assert der == (der[..next] + before) + Tlv(inner, value) + (after + rest);
    TlvIsFound(der[..next] + before, inner, value, after + rest);
  }

  /** The scanner reads from the writer's key the length of the modulus without its sign octet. */
  lemma KeyIsRead(before: Bytes, modulus: Bytes, exponent: Bytes, after: Bytes)
    requires modulus != [] && |Tlv(0x02, modulus) + exponent| < 0x7fff_0000
    ensures KeyAt(before + PublicKey(modulus, exponent) + after, |before|)
            == Some((|modulus| - (if modulus[0] == 0 then 1 else 0)) * 8)
  {
    hide ReadLength, DerLength, Tlv;
    var inner := Tlv(0x02, modulus) + exponent;
    var wrapped: Bytes := [0x00] + Tlv(0x30, inner);
    var der := before + PublicKey(modulus, exponent) + after;
    TlvSize(0x30, inner);
    TlvIsFound(before, 0x03, wrapped, after);
    KeyIsReadFrom(der, |before|, inner, modulus, exponent);
  }

  lemma KeyIsReadFrom(der: Bytes, i: nat, inner: Bytes, modulus: Bytes, exponent: Bytes)
    requires modulus != [] && inner == Tlv(0x02, modulus) + exponent && |inner| < 0x7fff_0000
    requires TlvAt(der, i, 0x03, [0x00] + Tlv(0x30, inner))
    ensures KeyAt(der, i) == Some((|modulus| - (if modulus[0] == 0 then 1 else 0)) * 8)
  {
    hide ReadLength, DerLength, Tlv;
    var wrapped: Bytes := [0x00] + Tlv(0x30, inner);
    assert wrapped == [0x00] + Tlv(0x30, inner) + [];
    TlvInside(der, i, 0x03, wrapped, [0x00], 0x30, inner, []);
    var first := ReadLength(der, i + 1).value.next;
    assert der[first..][..1] == [0x00];
    assert inner == [] + Tlv(0x02, modulus) + exponent;
    ModulusIsSmall(modulus, exponent);
    TlvInside(der, first + 1, 0x30, inner, [], 0x02, modulus, exponent);
    var third := ReadLength(der, ReadLength(der, first + 2).value.next + 1).value.next;
    assert der[third..third + |modulus|][0] == der[third];
  }

  lemma ModulusIsSmall(modulus: Bytes, exponent: Bytes)
    ensures |modulus| <= |Tlv(0x02, modulus) + exponent|
  {
    hide DerLength;
  }

  /** From the algorithm identifier on, the first key the scanner meets is the one that follows it. */
  lemma AlgorithmHoldsNoKey(before: Bytes, modulus: Bytes, exponent: Bytes, after: Bytes, k: nat)
    requires |before| <= k < |before| + |RSA_ENCRYPTION| + 2
    ensures KeyAt(before + RSA_ENCRYPTION + [0x05, 0x00] + PublicKey(modulus, exponent) + after, k).None?
  {
    hide ReadLength, PublicKey;
    var der := before + RSA_ENCRYPTION + [0x05, 0x00] + PublicKey(modulus, exponent) + after;
    assert der[k] == (RSA_ENCRYPTION + [0x05, 0x00])[k - |before|];
  }

  /**
   * In a request whose first RSA identifier is its key's algorithm, with the NULL parameter the writer gives
   * it, the scanner answers the length in bits of that key's modulus.
   */
  lemma ModulusIsRead(before: Bytes, modulus: Bytes, exponent: Bytes, after: Bytes, bits: Option<int>)
    requires modulus != [] && |Tlv(0x02, modulus) + exponent| < 0x7fff_0000
    requires var der := before + RSA_ENCRYPTION + [0x05, 0x00] + PublicKey(modulus, exponent) + after;
             Scanned(der, bits) && forall k: nat :: k < |before| ==> !OccursAt(der, RSA_ENCRYPTION, k)
    ensures bits == Some((|modulus| - (if modulus[0] == 0 then 1 else 0)) * 8)
  {
    hide KeyAt, PublicKey, Tlv;
    var head := before + RSA_ENCRYPTION + [0x05, 0x00];
    var der := head + PublicKey(modulus, exponent) + after;
    assert OccursAt(der, RSA_ENCRYPTION, |before|);
    assert FirstOid(der, |before|);
    forall k | |before| <= k < |head| ensures KeyAt(der, k).None? {
      AlgorithmHoldsNoKey(before, modulus, exponent, after, k);
    }
    KeyIsRead(head, modulus, exponent, after);
    KeyHasTwoOctets(modulus, exponent);
    OneFirstKey(der, |before|, |head|, bits);
  }

  lemma OneFirstKey(der: Bytes, start: nat, i: nat, bits: Option<int>)
    requires Scanned(der, bits) && FirstOid(der, start) && start <= i < |der| - 1
    requires Keyless(der, start, i) && KeyAt(der, i).Some?
    ensures bits == KeyAt(der, i)
  {
    hide KeyAt, OccursAt;
    var at: nat :| FirstOid(der, at) && FirstKey(der, at, bits);
    assert at == start;
    if bits.Some? {
      var k: nat :| start <= k < |der| - 1 && KeyAt(der, k) == bits && Keyless(der, start, k);
    }
  }

  lemma KeyHasTwoOctets(modulus: Bytes, exponent: Bytes)
    ensures |PublicKey(modulus, exponent)| >= 2
  {
    hide DerLength;
  }

  lemma TlvSize(tag: byte, content: Bytes)
    requires |content| < 0x8000_0000
    ensures |Tlv(tag, content)| <= |content| + 6
  {
    Powers();
    if |content| > 0 { LengthSizes(|content|); }
    Base256Size(|content|, 4);
  }

  lemma TlvIsFound(before: Bytes, tag: byte, content: Bytes, after: Bytes)
    requires |content| < 0x8000_0000
    ensures var der := before + Tlv(tag, content) + after;
            var header := ReadLength(der, |before| + 1);
            && der[|before|] == tag
            && header.Some? && header.value.length == |content| && header.value.next + |content| <= |der|
            && header.value.next == |before| + 1 + |DerLength(|content|)|
            && der[header.value.next..header.value.next + |content|] == content
            && der[header.value.next + |content|..] == after
  {
    hide ReadLength, DerLength, Power;
    var der := before + Tlv(tag, content) + after;
    assert der == (before + [tag]) + DerLength(|content|) + (content + after);
    Power127();
    LengthRoundTrip(|content|, before + [tag], content + after);
    assert der[|before| + 1 + |DerLength(|content|)|..] == content + after;
  }
}
