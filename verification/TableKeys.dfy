/** Sort keys: the zero-padded keys of CHANGE rows, and the folder keys of the secret catalog. */
module TableKeys {
  import opened Domain
  import opened ControlPlane

  /** The order of string sort keys. */
  predicate AtMost(a: string, b: string) {
    a == "" || (b != "" && (a[0] < b[0] || (a[0] == b[0] && AtMost(a[1..], b[1..]))))
  }

  // ---------------------------------------------------------------- CHANGE rows

  function Power10(k: nat): (r: nat)
    ensures r >= 1
  {
    if k == 0 then 1 else 10 * Power10(k - 1)
  }

  function Digit(d: nat): char
    requires d < 10
  {
    "0123456789"[d]
  }

  /** The lowest digits of a number, with leading zeros. */
  function Padded(n: nat, digits: nat): (s: string)
    ensures |s| == digits
  {
    if digits == 0 then "" else Padded(n / 10, digits - 1) + [Digit(n % 10)]
  }

  function ChangeSk(sequence: nat, uid: string): string {
    "CHANGE#" + Padded(sequence, 16) + "#" + uid
  }

  lemma DigitOrder(a: nat, b: nat)
    requires a < 10 && b < 10
    ensures (Digit(a) < Digit(b) <==> a < b) && (Digit(a) == Digit(b) <==> a == b)
  {
  }

  /** Padded numbers of one width sort as numbers, and what follows decides between equal ones. */
  lemma {:induction false} PaddedOrder(n: nat, m: nat, digits: nat, x: string, y: string)
    requires n < Power10(digits) && m < Power10(digits)
    ensures AtMost(Padded(n, digits) + x, Padded(m, digits) + y) <==> n < m || (n == m && AtMost(x, y))
    decreases digits
  {
    if digits == 0 {
      assert Padded(n, 0) + x == x && Padded(m, 0) + y == y;
    } else {
      var a, b := [Digit(n % 10)] + x, [Digit(m % 10)] + y;
      assert Padded(n, digits) + x == Padded(n / 10, digits - 1) + a;
      assert Padded(m, digits) + y == Padded(m / 10, digits - 1) + b;
      PaddedOrder(n / 10, m / 10, digits - 1, a, b);
      DigitOrder(n % 10, m % 10);
      assert a[1..] == x && b[1..] == y;
    }
  }

  lemma {:induction false} SamePrefix(prefix: string, x: string, y: string)
    ensures AtMost(prefix + x, prefix + y) <==> AtMost(x, y)
  {
    if prefix == "" {
      assert prefix + x == x && prefix + y == y;
    } else {
      assert (prefix + x)[1..] == prefix[1..] + x && (prefix + y)[1..] == prefix[1..] + y;
      SamePrefix(prefix[1..], x, y);
    }
  }

  lemma SequencesFit()
    ensures MAX_SAFE_INTEGER < Power10(16)
  {
    assert Power10(4) == 10_000;
    assert Power10(8) == 10_000 * Power10(4);
    assert Power10(12) == 10_000 * Power10(8);
    assert Power10(16) == 10_000 * Power10(12);
  }

  /** The BETWEEN range of the page query selects exactly the sequences after one number and up to another. */
  lemma RangeIsExact(after: nat, through: nat, sequence: nat, uid: string)
    requires after < through <= MAX_SAFE_INTEGER && sequence <= MAX_SAFE_INTEGER
    requires forall i :: 0 <= i < |uid| ==> uid[i] < '\U{FFFF}'
    ensures AtMost(ChangeSk(after + 1, ""), ChangeSk(sequence, uid))
            && AtMost(ChangeSk(sequence, uid), ChangeSk(through, "\U{FFFF}"))
            <==> after < sequence <= through
  {
    hide ChangeSk, Padded, Power10, AtMost;
    SequencesFit();
    KeysSortAsNumbers(after + 1, "", sequence, uid);
    KeysSortAsNumbers(sequence, uid, through, "\U{FFFF}");
    TextsSort(uid);
  }

  lemma TextsSort(uid: string)
    requires forall i :: 0 <= i < |uid| ==> uid[i] < '\U{FFFF}'
    ensures AtMost("", uid) && AtMost(uid, "\U{FFFF}")
  {
  }

  /** Two keys sort by their sequences, and by their texts when the sequences are equal. */
  lemma KeysSortAsNumbers(n: nat, x: string, m: nat, y: string)
    requires n < Power10(16) && m < Power10(16)
    ensures AtMost(ChangeSk(n, x), ChangeSk(m, y)) <==> n < m || (n == m && AtMost(x, y))
  {
    hide Padded, Power10, AtMost;
    var a, b := "#" + x, "#" + y;
    assert ChangeSk(n, x) == "CHANGE#" + (Padded(n, 16) + a);
    assert ChangeSk(m, y) == "CHANGE#" + (Padded(m, 16) + b);
    SamePrefix("CHANGE#", Padded(n, 16) + a, Padded(m, 16) + b);
    PaddedOrder(n, m, 16, a, b);
    SamePrefix("#", x, y);
  }

  // ---------------------------------------------------------------- the catalog

  /** The characters of secret ids and path prefixes: lower-case letters, digits, hyphens and slashes. */
  predicate PathText(path: string) {
    forall i :: 0 <= i < |path| ==> 'a' <= path[i] <= 'z' || '0' <= path[i] <= '9' || path[i] == '-' || path[i] == '/'
  }

  /** The length of the folder part: the position of the last slash, if there is one. */
  function LastSlash(id: string): (r: Option<nat>)
    ensures r.Some? ==> r.value < |id| && id[r.value] == '/' && forall i :: r.value < i < |id| ==> id[i] != '/'
    ensures r.None? ==> '/' !in id
  {
    if id == "" then None
    else if id[|id| - 1] == '/' then Some(|id| - 1)
    else LastSlash(id[..|id| - 1])
  }

  function FolderPath(id: string): Option<string> {
    var slash := LastSlash(id);
    if slash.None? then None else Some(id[..slash.value])
  }

  function CatalogSk(id: string): string {
    "PATH#" + (if FolderPath(id).Some? then FolderPath(id).value else "_") + "/SECRET#" + id
  }

  function QueryPrefix(path: Option<string>): string {
    if path.None? then "PATH#" else "PATH#" + path.value + "/"
  }

  /** The secret lies in the folder or below it; everything lies below the root. */
  predicate InFolder(id: string, path: Option<string>) {
    path.None? || (FolderPath(id).Some? && (FolderPath(id).value == path.value || path.value + "/" <= FolderPath(id).value))
  }

  /** The sort key begins with the query prefix exactly when the secret lies in that folder or below. */
  lemma PrefixIsSubtree(id: string, path: Option<string>)
    requires PathText(id) && (path.Some? ==> PathText(path.value) && path.value != "")
    ensures QueryPrefix(path) <= CatalogSk(id) <==> InFolder(id, path)
  {
    if path.Some? {
      var folder := if FolderPath(id).Some? then FolderPath(id).value else "_";
      var wanted, key := path.value + "/", folder + "/SECRET#" + id;
      assert QueryPrefix(path) == "PATH#" + wanted && CatalogSk(id) == "PATH#" + key;
      assert QueryPrefix(path) <= CatalogSk(id) <==> wanted <= key by {
        assert ("PATH#" + wanted)[5..] == wanted && ("PATH#" + key)[5..] == key;
        if "PATH#" + wanted <= "PATH#" + key { assert wanted == key[..|wanted|] by { assert ("PATH#" + key)[..5 + |wanted|][5..] == wanted; } }
      }
      if wanted <= key { PrefixStopsInFolder(id, folder, path.value); }
      if InFolder(id, path) { assert wanted <= key by { FolderIsPrefix(folder, path.value, "/SECRET#" + id); } }
    }
  }

  lemma FolderIsPrefix(folder: string, path: string, rest: string)
    requires (folder == path || path + "/" <= folder) && |rest| > 0 && rest[0] == '/'
    ensures path + "/" <= folder + rest
  {
  }

  /** No path reaches past the folder: the key goes on with characters that paths do not have. */
  lemma PrefixStopsInFolder(id: string, folder: string, path: string)
    requires PathText(path) && path != "" && path + "/" <= folder + "/SECRET#" + id
    requires folder == if FolderPath(id).Some? then FolderPath(id).value else "_"
    ensures FolderPath(id).Some? && (folder == path || path + "/" <= folder)
  {
    var key := folder + "/SECRET#" + id;
    assert key[..|path| + 1] == path + "/";
    assert forall i :: 0 <= i < |path| ==> key[i] == path[i];
    assert key[|folder| + 1] == 'S' && key[|path|] == '/';
    assert key[0] == (folder + "/")[0];
    if |path| <= |folder| { assert key[..|path|] == folder[..|path|]; }
    if |path| < |folder| { assert key[..|path| + 1] == folder[..|path| + 1]; }
  }

  // ---------------------------------------------------------------- one level of the tree

  /** The next segment below a prefix: up to the first slash of what is left of the path. */
  function FirstSegment(path: string): string {
    if path == "" || path[0] == '/' then "" else [path[0]] + FirstSegment(path[1..])
  }

  function ChildSegment(path: string, prefix: Option<string>): Option<string> {
    if prefix.None? then Some(FirstSegment(path))
    else if prefix.value + "/" <= path then Some(FirstSegment(path[|prefix.value| + 1..]))
    else None
  }

  /** The folder entry a secret is counted under, if it is not at this very level. */
  function CountedUnder(id: string, prefix: Option<string>): Option<string> {
    if FolderPath(id) == prefix || FolderPath(id).None? then None else ChildSegment(FolderPath(id).value, prefix)
  }

  function Count(ids: seq<string>, prefix: Option<string>, segment: string): nat {
    if ids == [] then 0
    else Count(ids[..|ids| - 1], prefix, segment) + (if CountedUnder(ids[|ids| - 1], prefix) == Some(segment) then 1 else 0)
  }

  function Total(order: seq<string>, counts: map<string, nat>): nat
    requires forall segment :: segment in order ==> segment in counts
  {
    if order == [] then 0 else Total(order[..|order| - 1], counts) + counts[order[|order| - 1]]
  }

  lemma {:induction false} TotalFrame(order: seq<string>, counts: map<string, nat>, segment: string, n: nat)
    requires (forall s :: s in order ==> s in counts) && segment !in order
    ensures Total(order, counts[segment := n]) == Total(order, counts)
  {
    if order != [] {
      assert order == order[..|order| - 1] + [order[|order| - 1]];
      TotalFrame(order[..|order| - 1], counts, segment, n);
    }
  }

  /** Raising one entry by one raises the total by one. */
  lemma {:induction false} TotalGrows(order: seq<string>, counts: map<string, nat>, segment: string)
    requires (forall s :: s in order ==> s in counts) && segment in order
    requires forall i, j :: 0 <= i < j < |order| ==> order[i] != order[j]
    ensures Total(order, counts[segment := counts[segment] + 1]) == Total(order, counts) + 1
  {
    var rest, last := order[..|order| - 1], order[|order| - 1];
    assert order == rest + [last];
    if last == segment {
      TotalFrame(rest, counts, segment, counts[segment] + 1);
    } else {
      TotalGrows(rest, counts, segment);
    }
  }

  lemma NewEntry(order: seq<string>, counts: map<string, nat>, segment: string)
    requires (forall s :: s in order ==> s in counts) && segment !in order
    ensures Total(order + [segment], counts[segment := 1]) == Total(order, counts) + 1
  {
    TotalFrame(order, counts, segment, 1);
    assert (order + [segment])[..|order|] == order;
  }

  /** Each folder's count is the number of listed secrets below it. */
  ghost predicate CountsAre(ids: seq<string>, prefix: Option<string>, counts: map<string, nat>) {
    forall segment :: if segment in counts then counts[segment] == Count(ids, prefix, segment) > 0 else Count(ids, prefix, segment) == 0
  }

  lemma CountsGrow(ids: seq<string>, prefix: Option<string>, counts: map<string, nat>, id: string)
    requires CountsAre(ids, prefix, counts)
    ensures CountedUnder(id, prefix).None? ==> CountsAre(ids + [id], prefix, counts)
    ensures CountedUnder(id, prefix).Some? ==>
              var segment := CountedUnder(id, prefix).value;
              CountsAre(ids + [id], prefix, counts[segment := if segment in counts then counts[segment] + 1 else 1])
  {
    hide CountedUnder;
    forall segment
      ensures Count(ids + [id], prefix, segment) == Count(ids, prefix, segment) + (if CountedUnder(id, prefix) == Some(segment) then 1 else 0)
    {
      assert (ids + [id])[..|ids|] == ids;
    }
    hide Count;
  }

  ghost predicate Distinct(order: seq<string>, counts: map<string, nat>) {
    && (forall segment :: segment in order <==> segment in counts)
    && (forall i, j :: 0 <= i < j < |order| ==> order[i] != order[j])
  }

  /** `folderEntries`: one more secret below a segment. */
  method CountOne(order: seq<string>, counts: map<string, nat>, segment: string) returns (order': seq<string>, counts': map<string, nat>)
    requires Distinct(order, counts)
    ensures Distinct(order', counts') && counts' == counts[segment := if segment in counts then counts[segment] + 1 else 1]
    ensures Total(order', counts') == Total(order, counts) + 1
  {
    if segment in counts {
      TotalGrows(order, counts, segment);
      order', counts' := order, counts[segment := counts[segment] + 1];
    } else {
      NewEntry(order, counts, segment);
      order', counts' := order + [segment], counts[segment := 1];
    }
  }

  /** What the catalog query returns for a folder: ids whose sort key begins with the folder's prefix. */
  ghost predicate Queried(ids: seq<string>, prefix: Option<string>) {
    && (prefix.Some? ==> PathText(prefix.value) && prefix.value != "")
    && forall i :: 0 <= i < |ids| ==> PathText(ids[i]) && QueryPrefix(prefix) <= CatalogSk(ids[i])
  }

  /** The ids of exactly this folder, in the order listed. */
  function AtThisLevel(ids: seq<string>, prefix: Option<string>): seq<string> {
    if ids == [] then []
    else AtThisLevel(ids[..|ids| - 1], prefix) + (if FolderPath(ids[|ids| - 1]) == prefix then [ids[|ids| - 1]] else [])
  }

  /** No queried id is passed over: it is of this level or below one of its segments. */
  lemma QueriedIsGrouped(ids: seq<string>, prefix: Option<string>, i: nat)
    requires Queried(ids, prefix) && i < |ids|
    ensures FolderPath(ids[i]) == prefix || CountedUnder(ids[i], prefix).Some?
  {
    hide CatalogSk, QueryPrefix, FirstSegment, LastSlash, PathText;
    PrefixIsSubtree(ids[i], prefix);
  }

  /**
   * The grouping loop of `listSecretTree`, over any ids: those of this level in order, and one count for
   * each segment with secrets below it. Over the ids the query returned, nothing is left out: the secrets
   * of this level plus all folder counts are all of them.
   */
  method GroupLevel(ids: seq<string>, prefix: Option<string>) returns (secrets: seq<string>, order: seq<string>, counts: map<string, nat>)
    ensures Distinct(order, counts) && CountsAre(ids, prefix, counts)
    ensures secrets == AtThisLevel(ids, prefix)
    ensures Queried(ids, prefix) ==> |secrets| + Total(order, counts) == |ids|
  {
    hide CountsAre, Total, FirstSegment, FolderPath, Queried, ChildSegment;
    secrets, order, counts := [], [], map[];
    NothingCounted(prefix);
    var i := 0;
    while i < |ids|
      invariant 0 <= i <= |ids|
      invariant Distinct(order, counts) && CountsAre(ids[..i], prefix, counts)
      invariant secrets == AtThisLevel(ids[..i], prefix)
      invariant Queried(ids, prefix) ==> |secrets| + Total(order, counts) == i
    {
      var id := ids[i];
      CountsGrow(ids[..i], prefix, counts, id);
      assert ids[..i + 1] == ids[..i] + [id] && ids[..i + 1][..i] == ids[..i];
      if Queried(ids, prefix) { QueriedIsGrouped(ids, prefix, i); }
      i := i + 1;
      var path := FolderPath(id);
      if path == prefix {
        secrets := secrets + [id];
        continue;
      }
      if path.None? { continue; }
      var segment := ChildSegment(path.value, prefix);
      if segment.None? { continue; }
      order, counts := CountOne(order, counts, segment.value);
    }
    assert ids[..i] == ids;
  }

  lemma NothingCounted(prefix: Option<string>)
    ensures Distinct([], map[]) && CountsAre([], prefix, map[]) && Total([], map[]) == 0
  {
  }
}
