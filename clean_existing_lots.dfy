/**
 * The lot-name cleaning pass (src/etl/clean_existing_lots.py): the lots
 * table is scanned in offset batches of 5000 until a batch comes back empty;
 * each lot's Russian name is replaced by its sanitised form when that
 * differs, and every batch is committed. The array is the lots table in scan
 * order; `html.unescape` is a parameter.
 */
module CleanExistingLots {
  import opened Wrappers
  import opened Text
  import opened Models
  import opened Cleaners

  const BatchSize := 5000

  function Min(a: int, b: int): int {
    if a < b then a else b
  }

  /** A lot with its Russian name sanitised. */
  function CleanedLot(l: Lot, unescape: string -> string): (r: Lot)
    ensures r.(nameRu := l.nameRu) == l
    ensures r.nameRu == SanitizeLotText(l.nameRu, unescape)
  {
    l.(nameRu := SanitizeLotText(l.nameRu, unescape))
  }

  /** Every lot with its name sanitised, in place. */
  function CleanedLots(s: seq<Lot>, unescape: string -> string): (r: seq<Lot>)
    ensures |r| == |s| && forall i :: 0 <= i < |s| ==> r[i] == CleanedLot(s[i], unescape)
  {
    seq(|s|, i requires 0 <= i < |s| => CleanedLot(s[i], unescape))
  }

  /** The number of positions at which two equally long tables differ. */
  function Differences(a: seq<Lot>, b: seq<Lot>): (n: nat)
    requires |a| == |b|
    ensures n <= |a|
    decreases |a|
  {
    if a == [] then 0
    else
      var k := |a| - 1;
      Differences(a[..k], b[..k]) + if a[k] != b[k] then 1 else 0
  }

  /** No difference exactly when the tables are equal. */
  lemma {:induction false} DifferencesZero(a: seq<Lot>, b: seq<Lot>)
    requires |a| == |b|
    ensures Differences(a, b) == 0 <==> a == b
    decreases |a|
  {
    if a != [] {
      var k := |a| - 1;
      DifferencesZero(a[..k], b[..k]);
      if a[..k] == b[..k] && a[k] == b[k] {
        assert forall i :: 0 <= i < k ==> a[i] == a[..k][i] && b[i] == b[..k][i];
      }
    }
  }

  /** The number of lots whose sanitised form differs: what the pass counts. */
  function Changed(s: seq<Lot>, unescape: string -> string): (n: nat)
    ensures n <= |s|
    decreases |s|
  {
    if s == [] then 0
    else
      var k := |s| - 1;
      Changed(s[..k], unescape) + if CleanedLot(s[k], unescape) != s[k] then 1 else 0
  }

  /** The count of changed lots is the number of positions the cleaning alters. */
  lemma {:induction false} ChangedCounts(s: seq<Lot>, unescape: string -> string)
    ensures Changed(s, unescape) == Differences(s, CleanedLots(s, unescape))
    decreases |s|
  {
    if s != [] {
      var k := |s| - 1;
      ChangedCounts(s[..k], unescape);
      assert CleanedLots(s, unescape)[..k] == CleanedLots(s[..k], unescape);
    }
  }

  /** The table after cleaning its first `m` lots. */
  function Partial(s: seq<Lot>, m: nat, unescape: string -> string): (r: seq<Lot>)
    requires m <= |s|
    ensures |r| == |s|
  {
    CleanedLots(s[..m], unescape) + s[m..]
  }

  /** Cleaning one more lot: one position is replaced and the change count grows when it differs. */
  lemma PartialNext(s: seq<Lot>, j: nat, unescape: string -> string)
    requires j < |s|
    ensures Partial(s, j, unescape)[j] == s[j]
    ensures Partial(s, j + 1, unescape) == Partial(s, j, unescape)[j := CleanedLot(s[j], unescape)]
    ensures Changed(s[..j + 1], unescape) == Changed(s[..j], unescape) + if CleanedLot(s[j], unescape) != s[j] then 1 else 0
  {
    var p, q := Partial(s, j, unescape), Partial(s, j + 1, unescape);
    assert p[j] == s[j..][0];
    forall i | 0 <= i < |s| ensures q[i] == p[j := CleanedLot(s[j], unescape)][i] {
      if i > j {
        assert q[i] == s[j + 1..][i - j - 1] && p[i] == s[j..][i - j];
      }
    }
    assert s[..j + 1][..j] == s[..j];
  }

  /** One lot: its name is replaced by the sanitised form when that differs, and then counted. */
  method CleanLot(lots: array<Lot>, j: nat, unescape: string -> string, ghost before: seq<Lot>, count: nat)
    returns (count': nat)
    requires j < lots.Length == |before|
    requires lots[..] == Partial(before, j, unescape)
    requires count == Changed(before[..j], unescape)
    modifies lots
    ensures lots[..] == Partial(before, j + 1, unescape)
    ensures count' == Changed(before[..j + 1], unescape)
  {
    PartialNext(before, j, unescape);
    var lot := lots[j];
    var original := lot.nameRu;
    var cleaned := SanitizeLotText(original, unescape);
    count' := count;
    if original != cleaned {
      lots[j] := lot.(nameRu := cleaned);
      count' := count + 1;
    }
  }

  /** One batch, `lots[lo..hi]`: each lot whose sanitised name differs is updated and counted. */
  method CleanBatch(lots: array<Lot>, lo: nat, hi: nat, unescape: string -> string, ghost before: seq<Lot>, count: nat)
    returns (count': nat)
    requires lo <= hi <= lots.Length == |before|
    requires lots[..] == Partial(before, lo, unescape)
    requires count == Changed(before[..lo], unescape)
    modifies lots
    ensures lots[..] == Partial(before, hi, unescape)
    ensures count' == Changed(before[..hi], unescape)
  {
    count' := count;
    var j := lo;
    while j < hi
      invariant lo <= j <= hi
      invariant lots[..] == Partial(before, j, unescape)
      invariant count' == Changed(before[..j], unescape)
    {
      count' := CleanLot(lots, j, unescape, before, count');
      j := j + 1;
    }
  }

  /**
   * `clean_database_lots`: afterwards every lot carries its sanitised name,
   * `updated_count` is the number of lots that changed, and there was one
   * commit per non-empty batch.
   */
  method CleanDatabaseLots(lots: array<Lot>, unescape: string -> string) returns (updatedCount: nat, commits: nat)
    modifies lots
    ensures lots[..] == CleanedLots(old(lots[..]), unescape)
    ensures updatedCount == Differences(old(lots[..]), lots[..])
    ensures commits * BatchSize >= lots.Length
    ensures commits == 0 || (commits - 1) * BatchSize < lots.Length
  {
    ghost var before := lots[..];
    ghost var done := 0;
    var offset := 0;
    updatedCount := 0;
    commits := 0;
    while true
      invariant offset == commits * BatchSize
      invariant commits == 0 || (commits - 1) * BatchSize < lots.Length
      invariant done == Min(offset, lots.Length)
      invariant lots[..] == Partial(before, done, unescape)
      invariant updatedCount == Changed(before[..done], unescape)
      decreases lots.Length + BatchSize - offset
    {
      var stop := Min(offset + BatchSize, lots.Length);
      if stop <= offset {
        break;
      }
      updatedCount := CleanBatch(lots, offset, stop, unescape, before, updatedCount);
      commits := commits + 1;
      offset := offset + BatchSize;
      done := stop;
    }
    assert before[..done] == before;
    assert lots[..] == CleanedLots(before, unescape);
    ChangedCounts(before, unescape);
  }

  // ------------------------------------------------------------- properties

  /** After the pass every non-empty name is normalised: single plain spaces, none at the ends. */
  lemma CleanedNamesNormal(s: seq<Lot>, unescape: string -> string, i: nat)
    requires i < |s|
    ensures var n := CleanedLots(s, unescape)[i].nameRu;
      Truthy(s[i].nameRu) ==> n.Some? && NoDoubleSpace(n.value) && NoEdgeSpace(n.value) && OnlyPlainSpaces(n.value)
    ensures !Truthy(s[i].nameRu) ==> CleanedLots(s, unescape)[i] == s[i]
  {
    if Truthy(s[i].nameRu) {
      SanitizedIsNormal(s[i].nameRu, unescape);
    }
  }
}
