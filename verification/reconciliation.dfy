/**
 The broker reconciliation service over stored positions: detecting discrepancies,
 repairing quantities, why one pass is enough, and how its verdict relates to the diff of
 the in-memory book.
 */
module Reconciliation {
  import opened Wrappers
  import opened PositionBooks

  /** A stored position document. */
  datatype Doc = Doc(id: PositionId, broker: nat, symbol: Symbol, side: Side, quantity: int,
                     averagePrice: real, isOpen: bool)

  /** One entry of the broker's position list. */
  datatype Holding = Holding(name: Name, quantity: int, averagePrice: real)

  datatype Discrepancy =
    | MissingPosition(id: PositionId, internalQuantity: int)
    | QuantityMismatch(id: PositionId, brokerQuantity: int, internalQuantity: int)
    | PriceMismatch(id: PositionId, brokerPrice: real, internalPrice: real)
    | OrphanPosition(name: Name, brokerQuantity: int)

  const PRICE_TOLERANCE := 0.005

  function Abs(x: int): nat {
    if x >= 0 then x else -x
  }

  function AbsReal(x: real): real {
    if x >= 0.0 then x else -x
  }

  predicate Relevant(d: Doc, broker: nat) {
    d.isOpen && d.broker == broker
  }

  ghost predicate UniqueIds(docs: seq<Doc>) {
    forall i, j :: 0 <= i < j < |docs| ==> docs[i].id != docs[j].id
  }

  // ---- Detection ----------------------------------------------------------

  /** The broker's entry for a symbol; of several, the last one listed. */
  function HoldingFor(holdings: seq<Holding>, s: Symbol): Option<Holding> {
    if holdings == [] then None
    else if holdings[|holdings| - 1].name.symbol == s then Some(holdings[|holdings| - 1])
    else HoldingFor(holdings[..|holdings| - 1], s)
  }

  predicate PriceDiffers(d: Doc, h: Holding) {
    d.averagePrice > 0.0 && AbsReal(h.averagePrice - d.averagePrice) / d.averagePrice > PRICE_TOLERANCE
  }

  function AboutDoc(d: Doc, holding: Option<Holding>): seq<Discrepancy> {
    if holding.None? then [MissingPosition(d.id, d.quantity)] else
    var h := holding.value;
    (if Abs(h.quantity) != d.quantity then [QuantityMismatch(d.id, Abs(h.quantity), d.quantity)] else [])
    + (if PriceDiffers(d, h) then [PriceMismatch(d.id, h.averagePrice, d.averagePrice)] else [])
  }

  function AboutDocs(docs: seq<Doc>, broker: nat, holdings: seq<Holding>, n: nat): seq<Discrepancy>
    requires n <= |docs|
  {
    if n == 0 then [] else
    var d := docs[n - 1];
    AboutDocs(docs, broker, holdings, n - 1)
    + if Relevant(d, broker) then AboutDoc(d, HoldingFor(holdings, d.symbol)) else []
  }

  predicate Governed(docs: seq<Doc>, broker: nat, s: Symbol) {
    exists i :: 0 <= i < |docs| && Relevant(docs[i], broker) && docs[i].symbol == s
  }

  predicate Orphaned(docs: seq<Doc>, broker: nat, h: Holding) {
    h.quantity != 0 && !Governed(docs, broker, h.name.symbol)
  }

  function Orphans(docs: seq<Doc>, broker: nat, holdings: seq<Holding>, n: nat): seq<Discrepancy>
    requires n <= |holdings|
  {
    if n == 0 then [] else
    var h := holdings[n - 1];
    Orphans(docs, broker, holdings, n - 1)
    + if Orphaned(docs, broker, h) then [OrphanPosition(h.name, Abs(h.quantity))] else []
  }

  function Detected(docs: seq<Doc>, broker: nat, holdings: seq<Holding>): seq<Discrepancy> {
    AboutDocs(docs, broker, holdings, |docs|) + Orphans(docs, broker, holdings, |holdings|)
  }

  // ---- Which reports are made ---------------------------------------------

  /** The broker's last entry for the symbol. */
  predicate IsLastFor(holdings: seq<Holding>, s: Symbol, h: Holding) {
    exists k :: 0 <= k < |holdings| && holdings[k] == h && h.name.symbol == s && NoneFrom(holdings, s, k + 1)
  }

  predicate NoneFrom(holdings: seq<Holding>, s: Symbol, from: nat) {
    forall k :: from <= k < |holdings| ==> holdings[k].name.symbol != s
  }

  lemma {:induction false} LookupIsTheLast(holdings: seq<Holding>, s: Symbol)
    ensures HoldingFor(holdings, s).None? <==> NoneFrom(holdings, s, 0)
    ensures forall h :: HoldingFor(holdings, s) == Some(h) <==> IsLastFor(holdings, s, h)
  {
    if holdings != [] {
      var n := |holdings| - 1;
      var front := holdings[..n];
      if holdings[n].name.symbol == s {
        assert IsLastFor(holdings, s, holdings[n]);
      } else {
        LookupIsTheLast(front, s);
        assert NoneFrom(holdings, s, 0) <==> NoneFrom(front, s, 0);
        forall h
          ensures IsLastFor(front, s, h) <==> IsLastFor(holdings, s, h)
        {
          LastOfTheFront(holdings, s, h);
        }
      }
    }
  }

  lemma {:induction false} LastOfTheFront(holdings: seq<Holding>, s: Symbol, h: Holding)
    requires holdings != [] && holdings[|holdings| - 1].name.symbol != s
    ensures IsLastFor(holdings[..|holdings| - 1], s, h) <==> IsLastFor(holdings, s, h)
  {
    var front := holdings[..|holdings| - 1];
    if IsLastFor(front, s, h) {
      var k :| 0 <= k < |front| && front[k] == h && h.name.symbol == s && NoneFrom(front, s, k + 1);
      assert NoneFrom(holdings, s, k + 1);
    }
    if IsLastFor(holdings, s, h) {
      var k :| 0 <= k < |holdings| && holdings[k] == h && h.name.symbol == s && NoneFrom(holdings, s, k + 1);
      assert front[k] == h && NoneFrom(front, s, k + 1);
    }
  }

  /** Half a percent of the stored average price lies between the two prices, or more. */
  predicate FarOff(stored: real, seen: real) {
    stored > 0.0 && (200.0 * seen > 201.0 * stored || 200.0 * seen < 199.0 * stored)
  }

  lemma {:induction false} FarOffIff(d: Doc, h: Holding)
    ensures PriceDiffers(d, h) <==> FarOff(d.averagePrice, h.averagePrice)
  {
    if d.averagePrice > 0.0 {
      QuotientExceeds(AbsReal(h.averagePrice - d.averagePrice), d.averagePrice, PRICE_TOLERANCE);
    }
  }

  lemma {:induction false} QuotientExceeds(x: real, y: real, t: real)
    requires y > 0.0
    ensures x / y > t <==> x > t * y
  {
    assert x / y * y == x;
    assert x / y > t ==> (x / y - t) * y > 0.0;
    assert x / y <= t ==> (t - x / y) * y >= 0.0;
  }

  /** A quantity as it is reported: without its sign. */
  predicate IsSizeOf(size: int, quantity: int) {
    size >= 0 && (size == quantity || size == -quantity)
  }

  /** What in the documents and the broker's list a report is about. */
  ghost predicate Warranted(docs: seq<Doc>, broker: nat, holdings: seq<Holding>, r: Discrepancy) {
    match r
    case OrphanPosition(name, size) =>
      exists k :: 0 <= k < |holdings| && holdings[k].name == name && size != 0 && IsSizeOf(size, holdings[k].quantity)
                  && forall i :: 0 <= i < |docs| && Relevant(docs[i], broker) ==> docs[i].symbol != name.symbol
    case _ =>
      exists i :: 0 <= i < |docs| && docs[i].isOpen && docs[i].broker == broker && WarrantedBy(docs[i], holdings, r)
  }

  ghost predicate WarrantedBy(d: Doc, holdings: seq<Holding>, r: Discrepancy) {
    match r
    case MissingPosition(id, quantity) => id == d.id && quantity == d.quantity && NoneFrom(holdings, d.symbol, 0)
    case QuantityMismatch(id, size, quantity) =>
      && id == d.id && quantity == d.quantity && size != quantity
      && exists h :: IsLastFor(holdings, d.symbol, h) && IsSizeOf(size, h.quantity)
    case PriceMismatch(id, seen, stored) =>
      && id == d.id && stored == d.averagePrice && FarOff(stored, seen)
      && exists h :: IsLastFor(holdings, d.symbol, h) && seen == h.averagePrice
    case OrphanPosition(_, _) => false
  }

  lemma {:induction false} AboutDocIff(d: Doc, holdings: seq<Holding>, r: Discrepancy)
    ensures r in AboutDoc(d, HoldingFor(holdings, d.symbol)) <==> WarrantedBy(d, holdings, r)
  {
    LookupIsTheLast(holdings, d.symbol);
    var holding := HoldingFor(holdings, d.symbol);
    if holding.Some? {
      FarOffIff(d, holding.value);
      assert IsLastFor(holdings, d.symbol, holding.value);
    }
  }

  predicate Reported(docs: seq<Doc>, broker: nat, holdings: seq<Holding>, i: nat, r: Discrepancy) {
    i < |docs| && Relevant(docs[i], broker) && r in AboutDoc(docs[i], HoldingFor(holdings, docs[i].symbol))
  }

  lemma {:induction false} AboutDocsIff(docs: seq<Doc>, broker: nat, holdings: seq<Holding>, n: nat, r: Discrepancy)
    requires n <= |docs|
    ensures r in AboutDocs(docs, broker, holdings, n)
            <==> exists i: nat :: i < n && Reported(docs, broker, holdings, i, r)
  {
    if n > 0 {
      AboutDocsIff(docs, broker, holdings, n - 1, r);
      assert r in AboutDocs(docs, broker, holdings, n)
          <==> r in AboutDocs(docs, broker, holdings, n - 1) || Reported(docs, broker, holdings, n - 1, r);
    }
  }

  predicate ReportedOrphan(docs: seq<Doc>, broker: nat, holdings: seq<Holding>, k: nat, r: Discrepancy) {
    && k < |holdings| && Orphaned(docs, broker, holdings[k])
    && r == OrphanPosition(holdings[k].name, Abs(holdings[k].quantity))
  }

  lemma {:induction false} OrphansIff(docs: seq<Doc>, broker: nat, holdings: seq<Holding>, n: nat, r: Discrepancy)
    requires n <= |holdings|
    ensures r in Orphans(docs, broker, holdings, n)
            <==> exists k: nat :: k < n && ReportedOrphan(docs, broker, holdings, k, r)
  {
    if n > 0 {
      OrphansIff(docs, broker, holdings, n - 1, r);
      assert r in Orphans(docs, broker, holdings, n)
          <==> r in Orphans(docs, broker, holdings, n - 1) || ReportedOrphan(docs, broker, holdings, n - 1, r);
    }
  }

  /** A discrepancy is reported exactly when the stored documents and the broker's list warrant it. */
  lemma {:induction false} ReportIff(docs: seq<Doc>, broker: nat, holdings: seq<Holding>, r: Discrepancy)
    ensures r in Detected(docs, broker, holdings) <==> Warranted(docs, broker, holdings, r)
  {
    AboutDocsIff(docs, broker, holdings, |docs|, r);
    OrphansIff(docs, broker, holdings, |holdings|, r);
    forall i | 0 <= i < |docs|
      ensures r in AboutDoc(docs[i], HoldingFor(holdings, docs[i].symbol)) <==> WarrantedBy(docs[i], holdings, r)
    {
      AboutDocIff(docs[i], holdings, r);
    }
    if r.OrphanPosition? {
      assert !exists i: nat :: Reported(docs, broker, holdings, i, r);
      OrphanWarrantedIff(docs, broker, holdings, r);
    } else {
      assert !exists k: nat :: ReportedOrphan(docs, broker, holdings, k, r);
      if i: nat :| i < |docs| && Reported(docs, broker, holdings, i, r) {
        assert WarrantedBy(docs[i], holdings, r);
      }
      if Warranted(docs, broker, holdings, r) {
        var i :| 0 <= i < |docs| && docs[i].isOpen && docs[i].broker == broker && WarrantedBy(docs[i], holdings, r);
        assert Reported(docs, broker, holdings, i, r);
      }
    }
  }

  lemma {:induction false} OrphanWarrantedIff(docs: seq<Doc>, broker: nat, holdings: seq<Holding>, r: Discrepancy)
    requires r.OrphanPosition?
    ensures (exists k: nat :: k < |holdings| && ReportedOrphan(docs, broker, holdings, k, r))
            <==> Warranted(docs, broker, holdings, r)
  {
    if k: nat :| k < |holdings| && ReportedOrphan(docs, broker, holdings, k, r) {
      assert holdings[k].name == r.name && IsSizeOf(r.brokerQuantity, holdings[k].quantity);
    }
    if Warranted(docs, broker, holdings, r) {
      var k :| 0 <= k < |holdings| && holdings[k].name == r.name && IsSizeOf(r.brokerQuantity, holdings[k].quantity);
      assert ReportedOrphan(docs, broker, holdings, k, r);
    }
  }

  // ---- Repair -------------------------------------------------------------

  /** The stored documents after one quantity correction; only an open document is touched. */
  function WithQuantity(docs: seq<Doc>, id: PositionId, quantity: int): (r: seq<Doc>)
    ensures |r| == |docs|
  {
    seq(|docs|, i requires 0 <= i < |docs| =>
      if docs[i].id == id && docs[i].isOpen then docs[i].(quantity := quantity) else docs[i])
  }

  predicate Resolvable(docs: seq<Doc>, d: Discrepancy) {
    d.QuantityMismatch? && d.brokerQuantity > 0 && exists i :: 0 <= i < |docs| && docs[i].id == d.id && docs[i].isOpen
  }

  function Repaired(docs: seq<Doc>, d: Discrepancy): (r: seq<Doc>)
    ensures |r| == |docs|
  {
    if d.QuantityMismatch? && d.brokerQuantity > 0 then WithQuantity(docs, d.id, d.brokerQuantity) else docs
  }

  function RepairedAll(docs: seq<Doc>, ds: seq<Discrepancy>): (r: seq<Doc>)
    ensures |r| == |docs|
  {
    if ds == [] then docs else Repaired(RepairedAll(docs, ds[..|ds| - 1]), ds[|ds| - 1])
  }

  /** A reported discrepancy with its resolution fields. */
  datatype Report = Report(discrepancy: Discrepancy, attempted: bool, resolved: bool)

  class BrokerReconciliationService {
    /** The stored position documents; ids are unique by index. */
    var docs: seq<Doc>

    constructor (docs: seq<Doc>)
      ensures this.docs == docs
    {
      this.docs := docs;
    }

    /** `holdings` is `None` without a broker or when its position list cannot be fetched. */
    method ReconcilePositions(broker: nat, holdings: Option<seq<Holding>>) returns (found: seq<Discrepancy>)
      ensures found == if holdings.None? then [] else Detected(docs, broker, holdings.value)
    {
      found := [];
      if holdings.None? {
        return;
      }
      var symbols: set<Symbol> := {};
      for k := 0 to |docs|
        invariant found == AboutDocs(docs, broker, holdings.value, k)
        invariant forall s :: s in symbols <==> exists i :: 0 <= i < k && Relevant(docs[i], broker) && docs[i].symbol == s
      {
        var d := docs[k];
        if !Relevant(d, broker) {
          continue;
        }
        symbols := symbols + {d.symbol};
        var holding := HoldingFor(holdings.value, d.symbol);
        if holding.None? {
          found := found + [MissingPosition(d.id, d.quantity)];
          continue;
        }
        ghost var before := found;
        var brokerQuantity := Abs(holding.value.quantity);
        if brokerQuantity != d.quantity {
          found := found + [QuantityMismatch(d.id, brokerQuantity, d.quantity)];
        }
        if PriceDiffers(d, holding.value) {
          found := found + [PriceMismatch(d.id, holding.value.averagePrice, d.averagePrice)];
        }
        assert found == before + AboutDoc(d, holding);
      }
      ghost var aboutDocs := found;
      for k := 0 to |holdings.value|
        invariant found == aboutDocs + Orphans(docs, broker, holdings.value, k)
      {
        var h := holdings.value[k];
        if h.quantity != 0 && h.name.symbol !in symbols {
          found := found + [OrphanPosition(h.name, Abs(h.quantity))];
        }
      }
    }

    method ResolveQuantity(d: Discrepancy) returns (resolved: bool)
      modifies this
      ensures docs == Repaired(old(docs), d) && resolved == Resolvable(old(docs), d)
    {
      resolved := false;
      if !d.QuantityMismatch? || d.brokerQuantity <= 0 {
        return;
      }
      ghost var before := docs;
      for i := 0 to |docs|
        invariant |docs| == |before|
        invariant forall j :: 0 <= j < i ==> docs[j] == WithQuantity(before, d.id, d.brokerQuantity)[j]
        invariant forall j :: i <= j < |docs| ==> docs[j] == before[j]
        invariant resolved <==> exists j :: 0 <= j < i && before[j].id == d.id && before[j].isOpen
      {
        if docs[i].id == d.id && docs[i].isOpen {
          docs := docs[i := docs[i].(quantity := d.brokerQuantity)];
          resolved := true;
        }
      }
    }

    method AttemptAutoResolution(found: seq<Discrepancy>) returns (reports: seq<Report>)
      modifies this
      ensures docs == RepairedAll(old(docs), found)
      ensures |reports| == |found|
      ensures forall k :: 0 <= k < |found| ==>
                reports[k] == Report(found[k], true, Resolvable(RepairedAll(old(docs), found[..k]), found[k]))
    {
      reports := [];
      for k := 0 to |found|
        invariant docs == RepairedAll(old(docs), found[..k]) && |reports| == k
        invariant forall j :: 0 <= j < k ==>
                    reports[j] == Report(found[j], true, Resolvable(RepairedAll(old(docs), found[..j]), found[j]))
      {
        assert found[..k + 1][..k] == found[..k];
        var resolved := ResolveQuantity(found[k]);
        reports := reports + [Report(found[k], true, resolved)];
      }
      assert found[..|found|] == found;
    }
  }

  // ---- One repair pass, document by document ------------------------------

  /** What a pass does to one document, whatever the others are. */
  function Corrected(d: Doc, broker: nat, holdings: seq<Holding>): Doc {
    var holding := HoldingFor(holdings, d.symbol);
    if Relevant(d, broker) && holding.Some? && holding.value.quantity != 0
    then d.(quantity := Abs(holding.value.quantity)) else d
  }

  function CorrectedUpTo(docs: seq<Doc>, broker: nat, holdings: seq<Holding>, n: nat): (r: seq<Doc>)
    ensures |r| == |docs|
  {
    seq(|docs|, i requires 0 <= i < |docs| => if i < n then Corrected(docs[i], broker, holdings) else docs[i])
  }

  lemma {:induction false} RepairsCompose(docs: seq<Doc>, a: seq<Discrepancy>, b: seq<Discrepancy>)
    ensures RepairedAll(docs, a + b) == RepairedAll(RepairedAll(docs, a), b)
  {
    if b == [] {
      assert a + b == a;
    } else {
      var k := |b| - 1;
      RepairsCompose(docs, a, b[..k]);
      assert (a + b)[..|a + b| - 1] == a + b[..k];
    }
  }

  lemma {:induction false} RepairOneDoc(docs: seq<Doc>, broker: nat, holdings: seq<Holding>, k: nat, d: Doc)
    requires UniqueIds(docs) && k < |docs| && docs[k] == d && Relevant(d, broker)
    ensures RepairedAll(docs, AboutDoc(d, HoldingFor(holdings, d.symbol)))
            == docs[k := Corrected(d, broker, holdings)]
  {
    var holding := HoldingFor(holdings, d.symbol);
    if holding.None? {
      assert RepairedAll(docs, []) == docs;
    } else {
      var q := Abs(holding.value.quantity);
      var first := if q != d.quantity then [QuantityMismatch(d.id, q, d.quantity)] else [];
      var second := if PriceDiffers(d, holding.value)
                    then [PriceMismatch(d.id, holding.value.averagePrice, d.averagePrice)] else [];
      RepairsCompose(docs, first, second);
      assert RepairedAll(docs, []) == docs;
      assert RepairedAll(docs, first) == docs[k := Corrected(d, broker, holdings)] by {
        if q != d.quantity && q > 0 {
          assert WithQuantity(docs, d.id, q) == docs[k := d.(quantity := q)];
        }
      }
      var after := RepairedAll(docs, first);
      assert RepairedAll(after, []) == after;
    }
  }

  lemma {:induction false} RepairIsPointwise(docs: seq<Doc>, broker: nat, holdings: seq<Holding>, n: nat)
    requires UniqueIds(docs) && n <= |docs|
    ensures RepairedAll(docs, AboutDocs(docs, broker, holdings, n)) == CorrectedUpTo(docs, broker, holdings, n)
  {
    if n == 0 {
      assert CorrectedUpTo(docs, broker, holdings, 0) == docs;
    } else {
      var d, before := docs[n - 1], CorrectedUpTo(docs, broker, holdings, n - 1);
      RepairIsPointwise(docs, broker, holdings, n - 1);
      CorrectOneMore(docs, broker, holdings, n);
      if Relevant(d, broker) {
        var about := AboutDoc(d, HoldingFor(holdings, d.symbol));
        RepairsCompose(docs, AboutDocs(docs, broker, holdings, n - 1), about);
        RepairOneDoc(before, broker, holdings, n - 1, d);
      } else {
        assert AboutDocs(docs, broker, holdings, n - 1) + [] == AboutDocs(docs, broker, holdings, n - 1);
      }
    }
  }

  lemma {:induction false} CorrectOneMore(docs: seq<Doc>, broker: nat, holdings: seq<Holding>, n: nat)
    requires 0 < n <= |docs|
    ensures var before := CorrectedUpTo(docs, broker, holdings, n - 1);
            && before[n - 1] == docs[n - 1]
            && CorrectedUpTo(docs, broker, holdings, n) == before[n - 1 := Corrected(docs[n - 1], broker, holdings)]
            && (UniqueIds(docs) ==> UniqueIds(before))
  {
  }

  lemma {:induction false} OrphansRepairNothing(docs: seq<Doc>, stored: seq<Doc>, broker: nat, holdings: seq<Holding>,
                                                n: nat)
    requires n <= |holdings|
    ensures RepairedAll(stored, Orphans(docs, broker, holdings, n)) == stored
  {
    if n > 0 {
      OrphansRepairNothing(docs, stored, broker, holdings, n - 1);
      var h, before := holdings[n - 1], Orphans(docs, broker, holdings, n - 1);
      if Orphaned(docs, broker, h) {
        RepairsCompose(stored, before, [OrphanPosition(h.name, Abs(h.quantity))]);
        assert RepairedAll(stored, []) == stored;
        assert [OrphanPosition(h.name, Abs(h.quantity))][..0] == [];
      } else {
        assert before + [] == before;
      }
    }
  }

  /** A detect-and-repair pass corrects each document on its own. */
  lemma {:induction false} PassIsPointwise(docs: seq<Doc>, broker: nat, holdings: seq<Holding>)
    requires UniqueIds(docs)
    ensures RepairedAll(docs, Detected(docs, broker, holdings)) == CorrectedUpTo(docs, broker, holdings, |docs|)
  {
    var about := AboutDocs(docs, broker, holdings, |docs|);
    RepairIsPointwise(docs, broker, holdings, |docs|);
    RepairsCompose(docs, about, Orphans(docs, broker, holdings, |holdings|));
    OrphansRepairNothing(docs, RepairedAll(docs, about), broker, holdings, |holdings|);
  }

  /** What a pass leaves of one open position of the broker. */
  ghost predicate TookTheSize(d: Doc, after: Doc, holdings: seq<Holding>) {
    if NoneFrom(holdings, d.symbol, 0) then after == d
    else exists h :: IsLastFor(holdings, d.symbol, h)
                     && if h.quantity == 0 then after == d else IsSizeOf(after.quantity, h.quantity)
  }

  /**
   What a pass does to the stored documents: an open position of the broker takes the size of the
   broker's last entry for its symbol, unless that is zero or there is none; nothing else changes.
   */
  lemma {:induction false} PassSetsTheSize(docs: seq<Doc>, broker: nat, holdings: seq<Holding>, i: nat)
    requires UniqueIds(docs) && i < |docs|
    ensures var d, after := docs[i], RepairedAll(docs, Detected(docs, broker, holdings))[i];
            && after == d.(quantity := after.quantity)
            && (if d.isOpen && d.broker == broker then TookTheSize(d, after, holdings) else after == d)
  {
    PassIsPointwise(docs, broker, holdings);
    if Relevant(docs[i], broker) {
      CorrectedTookTheSize(docs[i], broker, holdings);
    }
  }

  lemma {:induction false} CorrectedTookTheSize(d: Doc, broker: nat, holdings: seq<Holding>)
    requires Relevant(d, broker)
    ensures TookTheSize(d, Corrected(d, broker, holdings), holdings)
  {
    LookupIsTheLast(holdings, d.symbol);
    var holding := HoldingFor(holdings, d.symbol);
    if holding.Some? {
      assert IsLastFor(holdings, d.symbol, holding.value);
    }
  }

  lemma {:induction false} RepairsKeepTheRest(docs: seq<Doc>, ds: seq<Discrepancy>, i: nat)
    requires i < |docs|
    ensures RepairedAll(docs, ds)[i] == docs[i].(quantity := RepairedAll(docs, ds)[i].quantity)
  {
    if ds != [] {
      RepairsKeepTheRest(docs, ds[..|ds| - 1], i);
    }
  }

  /** A pass resolves exactly the quantity reports whose broker size is not zero. */
  lemma {:induction false} ResolvedIff(docs: seq<Doc>, broker: nat, holdings: seq<Holding>, k: nat)
    requires k < |Detected(docs, broker, holdings)|
    ensures var found := Detected(docs, broker, holdings);
            Resolvable(RepairedAll(docs, found[..k]), found[k])
            <==> found[k].QuantityMismatch? && found[k].brokerQuantity != 0
  {
    var found := Detected(docs, broker, holdings);
    var r := found[k];
    ReportIff(docs, broker, holdings, r);
    if r.QuantityMismatch? {
      var i :| 0 <= i < |docs| && docs[i].isOpen && docs[i].broker == broker && WarrantedBy(docs[i], holdings, r);
      RepairsKeepTheRest(docs, found[..k], i);
    }
  }

  // ---- The second pass ----------------------------------------------------

  /** The reports that are not about quantities. */
  function Others(ds: seq<Discrepancy>): seq<Discrepancy> {
    if ds == [] then [] else
    Others(ds[..|ds| - 1]) + if ds[|ds| - 1].QuantityMismatch? then [] else [ds[|ds| - 1]]
  }

  lemma {:induction false} OthersDistributes(a: seq<Discrepancy>, b: seq<Discrepancy>)
    ensures Others(a + b) == Others(a) + Others(b)
  {
    if b == [] {
      assert a + b == a;
    } else {
      var k := |b| - 1;
      OthersDistributes(a, b[..k]);
      assert (a + b)[..|a + b| - 1] == a + b[..k];
    }
  }

  /** The only quantity reports are about positions the broker lists with quantity zero. */
  ghost predicate OnlyFlatMismatches(ds: seq<Discrepancy>) {
    forall d :: d in ds && d.QuantityMismatch? ==> d.brokerQuantity == 0
  }

  lemma {:induction false} CorrectedDocReports(d: Doc, broker: nat, holdings: seq<Holding>)
    requires Relevant(d, broker)
    ensures var holding, c := HoldingFor(holdings, d.symbol), Corrected(d, broker, holdings);
            && Others(AboutDoc(c, holding)) == Others(AboutDoc(d, holding))
            && OnlyFlatMismatches(AboutDoc(c, holding))
  {
    var holding, c := HoldingFor(holdings, d.symbol), Corrected(d, broker, holdings);
    assert Others([]) == [];
    if holding.Some? {
      var h := holding.value;
      var price := if PriceDiffers(d, h) then [PriceMismatch(d.id, h.averagePrice, d.averagePrice)] else [];
      QuantityReportsAreFiltered(d.id, Abs(h.quantity), d.quantity, price);
      QuantityReportsAreFiltered(c.id, Abs(h.quantity), c.quantity, price);
    }
  }

  lemma {:induction false} QuantityReportsAreFiltered(id: PositionId, brokerQuantity: int, quantity: int,
                                                      rest: seq<Discrepancy>)
    ensures var first := if brokerQuantity != quantity then [QuantityMismatch(id, brokerQuantity, quantity)] else [];
            Others(first + rest) == Others(rest)
  {
    var first := if brokerQuantity != quantity then [QuantityMismatch(id, brokerQuantity, quantity)] else [];
    OthersDistributes(first, rest);
    assert Others([]) == [];
    assert Others(first) == [];
  }

  lemma {:induction false} CorrectedReports(docs: seq<Doc>, broker: nat, holdings: seq<Holding>, n: nat)
    requires n <= |docs|
    ensures var after := CorrectedUpTo(docs, broker, holdings, |docs|);
            && Others(AboutDocs(after, broker, holdings, n)) == Others(AboutDocs(docs, broker, holdings, n))
            && OnlyFlatMismatches(AboutDocs(after, broker, holdings, n))
  {
    if n > 0 {
      CorrectedReports(docs, broker, holdings, n - 1);
      var after, d := CorrectedUpTo(docs, broker, holdings, |docs|), docs[n - 1];
      var c := after[n - 1];
      assert c == Corrected(d, broker, holdings);
      var first, second := if Relevant(d, broker) then AboutDoc(d, HoldingFor(holdings, d.symbol)) else [],
                        if Relevant(c, broker) then AboutDoc(c, HoldingFor(holdings, c.symbol)) else [];
      if Relevant(d, broker) {
        CorrectedDocReports(d, broker, holdings);
      }
      OthersDistributes(AboutDocs(docs, broker, holdings, n - 1), first);
      OthersDistributes(AboutDocs(after, broker, holdings, n - 1), second);
    }
  }

  lemma {:induction false} OrphansAreUnchanged(docs: seq<Doc>, broker: nat, holdings: seq<Holding>, n: nat)
    requires n <= |holdings|
    ensures var after := CorrectedUpTo(docs, broker, holdings, |docs|);
            && Orphans(after, broker, holdings, n) == Orphans(docs, broker, holdings, n)
            && OnlyFlatMismatches(Orphans(docs, broker, holdings, n))
  {
    if n > 0 {
      OrphansAreUnchanged(docs, broker, holdings, n - 1);
      var after, s := CorrectedUpTo(docs, broker, holdings, |docs|), holdings[n - 1].name.symbol;
      assert forall i :: 0 <= i < |docs| ==>
          (Relevant(after[i], broker) <==> Relevant(docs[i], broker)) && after[i].symbol == docs[i].symbol;
      assert Governed(after, broker, s) <==> Governed(docs, broker, s);
    }
  }

  /**
   Reconciliation converges in one pass over the same broker snapshot: only quantities
   change and no position is opened, closed or reordered; the next pass reports a quantity
   only where the broker lists zero, reports everything else as before, and repairs nothing.
   */
  lemma {:induction false} PassConverges(docs: seq<Doc>, broker: nat, holdings: seq<Holding>)
    requires UniqueIds(docs)
    ensures var after := RepairedAll(docs, Detected(docs, broker, holdings));
            && |after| == |docs|
            && (forall i :: 0 <= i < |docs| ==> after[i] == docs[i].(quantity := after[i].quantity))
            && OnlyFlatMismatches(Detected(after, broker, holdings))
            && Others(Detected(after, broker, holdings)) == Others(Detected(docs, broker, holdings))
            && RepairedAll(after, Detected(after, broker, holdings)) == after
  {
    PassIsPointwise(docs, broker, holdings);
    var after := CorrectedUpTo(docs, broker, holdings, |docs|);
    CorrectedReports(docs, broker, holdings, |docs|);
    OrphansAreUnchanged(docs, broker, holdings, |holdings|);
    OthersDistributes(AboutDocs(docs, broker, holdings, |docs|), Orphans(docs, broker, holdings, |holdings|));
    OthersDistributes(AboutDocs(after, broker, holdings, |docs|), Orphans(after, broker, holdings, |holdings|));
    assert UniqueIds(after);
    PassIsPointwise(after, broker, holdings);
    assert CorrectedUpTo(after, broker, holdings, |docs|) == after;
  }

  // ---- Several positions on one symbol ------------------------------------

  /** How many open positions the broker account has on a symbol, and their total quantity. */
  function CountOn(docs: seq<Doc>, broker: nat, s: Symbol): nat {
    if docs == [] then 0 else
    var d := docs[|docs| - 1];
    CountOn(docs[..|docs| - 1], broker, s) + if Relevant(d, broker) && d.symbol == s then 1 else 0
  }

  function TotalOn(docs: seq<Doc>, broker: nat, s: Symbol): int {
    if docs == [] then 0 else
    var d := docs[|docs| - 1];
    TotalOn(docs[..|docs| - 1], broker, s) + if Relevant(d, broker) && d.symbol == s then d.quantity else 0
  }

  lemma {:induction false} EachGetsTheWhole(docs: seq<Doc>, broker: nat, holdings: seq<Holding>, s: Symbol)
    requires HoldingFor(holdings, s).Some? && HoldingFor(holdings, s).value.quantity != 0
    ensures TotalOn(CorrectedUpTo(docs, broker, holdings, |docs|), broker, s)
            == CountOn(docs, broker, s) * Abs(HoldingFor(holdings, s).value.quantity)
  {
    if docs != [] {
      var k := |docs| - 1;
      EachGetsTheWhole(docs[..k], broker, holdings, s);
      var after := CorrectedUpTo(docs, broker, holdings, |docs|);
      assert after[..k] == CorrectedUpTo(docs[..k], broker, holdings, k);
      Distribute(CountOn(docs[..k], broker, s), Abs(HoldingFor(holdings, s).value.quantity));
    }
  }

  lemma {:induction false} Distribute(n: int, q: int)
    ensures (n + 1) * q == n * q + q
  {
  }

  /**
   A repair gives every open position on a symbol the broker's whole quantity, so their
   total is right exactly when there is one such position.
   */
  lemma {:induction false} RepairedTotalIsRightIff(docs: seq<Doc>, broker: nat, holdings: seq<Holding>, s: Symbol)
    requires UniqueIds(docs)
    requires HoldingFor(holdings, s).Some? && HoldingFor(holdings, s).value.quantity != 0
    ensures var q := Abs(HoldingFor(holdings, s).value.quantity);
            var after := RepairedAll(docs, Detected(docs, broker, holdings));
            TotalOn(after, broker, s) == q <==> CountOn(docs, broker, s) == 1
  {
    PassIsPointwise(docs, broker, holdings);
    EachGetsTheWhole(docs, broker, holdings, s);
    OnlyOneTimes(CountOn(docs, broker, s), Abs(HoldingFor(holdings, s).value.quantity));
  }

  lemma {:induction false} OnlyOneTimes(n: nat, q: int)
    requires q > 0
    ensures n * q == q <==> n == 1
  {
    if n >= 2 {
      assert n * q >= 2 * q;
    }
  }

  // ---- The two reconcilers on the same data -------------------------------

  /** The live service's lookup: broker quantities by upper-case name. */
  function BrokerMap(holdings: seq<Holding>): map<Name, int> {
    if holdings == [] then map[] else
    var h := holdings[|holdings| - 1];
    BrokerMap(holdings[..|holdings| - 1])[Upper(h.name.symbol) := h.quantity]
  }

  lemma {:induction false} BrokerMapIsTheLookup(holdings: seq<Holding>)
    ensures forall s :: Upper(s) in BrokerMap(holdings) <==> HoldingFor(holdings, s).Some?
    ensures forall s :: Upper(s) in BrokerMap(holdings) ==>
              BrokerMap(holdings)[Upper(s)] == HoldingFor(holdings, s).value.quantity
    ensures forall n :: n in BrokerMap(holdings) ==> n == Upper(n.symbol)
    ensures forall h :: h in holdings ==> Upper(h.name.symbol) in BrokerMap(holdings)
  {
    if holdings != [] {
      var k := |holdings| - 1;
      BrokerMapIsTheLookup(holdings[..k]);
      assert holdings == holdings[..k] + [holdings[k]];
    }
  }

  lemma {:induction false} HoldingForIsListed(holdings: seq<Holding>, s: Symbol)
    requires HoldingFor(holdings, s).Some?
    ensures HoldingFor(holdings, s).value in holdings && HoldingFor(holdings, s).value.name.symbol == s
  {
    if holdings[|holdings| - 1].name.symbol != s {
      HoldingForIsListed(holdings[..|holdings| - 1], s);
    }
  }

  ghost function HeldOf(docs: seq<Doc>, broker: nat): set<Held> {
    set i | 0 <= i < |docs| && Relevant(docs[i], broker) :: Held(docs[i].symbol, docs[i].side, docs[i].quantity)
  }

  /** No quantity, missing or orphan report; price reports do not count here. */
  ghost predicate Clean(ds: seq<Discrepancy>) {
    forall d :: d in ds ==> d.PriceMismatch?
  }

  /** What a clean result says, one document and one broker entry at a time. */
  ghost predicate Matches(docs: seq<Doc>, broker: nat, holdings: seq<Holding>) {
    && (forall i :: 0 <= i < |docs| && Relevant(docs[i], broker) ==> MatchesDoc(docs[i], holdings))
    && (forall k :: 0 <= k < |holdings| ==> !Orphaned(docs, broker, holdings[k]))
  }

  predicate MatchesDoc(d: Doc, holdings: seq<Holding>) {
    var holding := HoldingFor(holdings, d.symbol);
    holding.Some? && Abs(holding.value.quantity) == d.quantity
  }

  lemma {:induction false} DocsAreClean(docs: seq<Doc>, broker: nat, holdings: seq<Holding>, n: nat)
    requires n <= |docs|
    ensures Clean(AboutDocs(docs, broker, holdings, n)) <==> DocsMatch(docs, broker, holdings, n)
  {
    if n > 0 {
      DocsAreClean(docs, broker, holdings, n - 1);
      var d := docs[n - 1];
      var before, about := AboutDocs(docs, broker, holdings, n - 1),
                           if Relevant(d, broker) then AboutDoc(d, HoldingFor(holdings, d.symbol)) else [];
      OneDocIsClean(d, broker, holdings, about);
      OneMoreDoc(docs, broker, holdings, n);
      CleanDistributes(before, about);
      assert AboutDocs(docs, broker, holdings, n) == before + about;
    }
  }

  lemma {:induction false} OneMoreDoc(docs: seq<Doc>, broker: nat, holdings: seq<Holding>, n: nat)
    requires 0 < n <= |docs|
    ensures (DocsMatch(docs, broker, holdings, n)
             <==> DocsMatch(docs, broker, holdings, n - 1)
                  && (Relevant(docs[n - 1], broker) ==> MatchesDoc(docs[n - 1], holdings)))
  {
  }

  ghost predicate DocsMatch(docs: seq<Doc>, broker: nat, holdings: seq<Holding>, n: nat)
    requires n <= |docs|
  {
    forall i :: 0 <= i < n && Relevant(docs[i], broker) ==> MatchesDoc(docs[i], holdings)
  }

  lemma {:induction false} OneDocIsClean(d: Doc, broker: nat, holdings: seq<Holding>, about: seq<Discrepancy>)
    requires about == if Relevant(d, broker) then AboutDoc(d, HoldingFor(holdings, d.symbol)) else []
    ensures Clean(about) <==> (Relevant(d, broker) ==> MatchesDoc(d, holdings))
  {
    if Relevant(d, broker) && !MatchesDoc(d, holdings) {
      assert about[0] in about;
    }
  }

  lemma {:induction false} CleanDistributes(a: seq<Discrepancy>, b: seq<Discrepancy>)
    ensures Clean(a + b) <==> Clean(a) && Clean(b)
  {
    assert forall d :: d in a + b <==> d in a || d in b;
  }

  lemma {:induction false} OrphansAreClean(docs: seq<Doc>, broker: nat, holdings: seq<Holding>, n: nat)
    requires n <= |holdings|
    ensures Clean(Orphans(docs, broker, holdings, n)) <==>
            forall k :: 0 <= k < n ==> !Orphaned(docs, broker, holdings[k])
  {
    if n > 0 {
      OrphansAreClean(docs, broker, holdings, n - 1);
      var h := holdings[n - 1];
      var about := if Orphaned(docs, broker, h) then [OrphanPosition(h.name, Abs(h.quantity))] else [];
      CleanDistributes(Orphans(docs, broker, holdings, n - 1), about);
      if Orphaned(docs, broker, h) {
        assert about[0] in about;
      }
    }
  }

  /** The service's result is sound and complete: clean exactly when every position and entry matches. */
  lemma {:induction false} DetectionIsExact(docs: seq<Doc>, broker: nat, holdings: seq<Holding>)
    ensures Clean(Detected(docs, broker, holdings)) <==> Matches(docs, broker, holdings)
  {
    DocsAreClean(docs, broker, holdings, |docs|);
    OrphansAreClean(docs, broker, holdings, |holdings|);
    CleanDistributes(AboutDocs(docs, broker, holdings, |docs|), Orphans(docs, broker, holdings, |holdings|));
  }

  /** A book in step with the broker leaves the service nothing to report. */
  lemma {:induction false} InStepIsClean(docs: seq<Doc>, broker: nat, holdings: seq<Holding>)
    requires forall i :: 0 <= i < |docs| ==> docs[i].quantity >= 0
    requires InStep(HeldOf(docs, broker), BrokerMap(holdings))
    ensures Clean(Detected(docs, broker, holdings))
  {
    BrokerMapIsTheLookup(holdings);
    DetectionIsExact(docs, broker, holdings);
    forall i | 0 <= i < |docs| && Relevant(docs[i], broker)
      ensures MatchesDoc(docs[i], holdings)
    {
      assert Held(docs[i].symbol, docs[i].side, docs[i].quantity) in HeldOf(docs, broker);
    }
    forall k | 0 <= k < |holdings|
      ensures Governed(docs, broker, holdings[k].name.symbol)
    {
      assert holdings[k] in holdings;
      var n := Upper(holdings[k].name.symbol);
      var h :| h in HeldOf(docs, broker) && h.symbol == n.symbol;
    }
  }

  /** The service ignores what the book's diff sees: the sign of a quantity, and flat broker entries. */
  ghost predicate SidesAgree(docs: seq<Doc>, broker: nat, holdings: seq<Holding>) {
    && (forall i :: 0 <= i < |docs| && Relevant(docs[i], broker) ==> SideAgrees(docs[i], holdings))
    && (forall k :: 0 <= k < |holdings| && holdings[k].quantity == 0 ==>
          Governed(docs, broker, holdings[k].name.symbol))
  }

  predicate SideAgrees(d: Doc, holdings: seq<Holding>) {
    var holding := HoldingFor(holdings, d.symbol);
    holding.Some? && (d.quantity != 0 ==> (d.side.Long? <==> holding.value.quantity > 0))
  }

  /** After a clean service result the book is in step exactly when sides agree and no flat entry is unbooked. */
  lemma {:induction false} CleanIsInStepIff(docs: seq<Doc>, broker: nat, holdings: seq<Holding>)
    requires Clean(Detected(docs, broker, holdings))
    ensures InStep(HeldOf(docs, broker), BrokerMap(holdings)) <==> SidesAgree(docs, broker, holdings)
  {
    BrokerMapIsTheLookup(holdings);
    DetectionIsExact(docs, broker, holdings);
    if InStep(HeldOf(docs, broker), BrokerMap(holdings)) {
      InStepMeansSidesAgree(docs, broker, holdings);
    }
    if SidesAgree(docs, broker, holdings) {
      SidesAgreeMeansInStep(docs, broker, holdings);
    }
  }

  lemma {:induction false} InStepMeansSidesAgree(docs: seq<Doc>, broker: nat, holdings: seq<Holding>)
    requires Matches(docs, broker, holdings) && InStep(HeldOf(docs, broker), BrokerMap(holdings))
    ensures SidesAgree(docs, broker, holdings)
  {
    BrokerMapIsTheLookup(holdings);
    forall i | 0 <= i < |docs| && Relevant(docs[i], broker)
      ensures SideAgrees(docs[i], holdings)
    {
      assert MatchesDoc(docs[i], holdings);
      assert Held(docs[i].symbol, docs[i].side, docs[i].quantity) in HeldOf(docs, broker);
    }
    forall k | 0 <= k < |holdings|
      ensures Governed(docs, broker, holdings[k].name.symbol)
    {
      assert holdings[k] in holdings;
      var n := Upper(holdings[k].name.symbol);
      var h :| h in HeldOf(docs, broker) && h.symbol == n.symbol;
    }
  }

  lemma {:induction false} SidesAgreeMeansInStep(docs: seq<Doc>, broker: nat, holdings: seq<Holding>)
    requires Matches(docs, broker, holdings) && SidesAgree(docs, broker, holdings)
    ensures InStep(HeldOf(docs, broker), BrokerMap(holdings))
  {
    BrokerMapIsTheLookup(holdings);
    var held, m := HeldOf(docs, broker), BrokerMap(holdings);
    forall h | h in held
      ensures Upper(h.symbol) in m && m[Upper(h.symbol)] == Signed(h.side, h.quantity)
    {
      var i :| 0 <= i < |docs| && Relevant(docs[i], broker) && h == Held(docs[i].symbol, docs[i].side, docs[i].quantity);
      assert MatchesDoc(docs[i], holdings) && SideAgrees(docs[i], holdings);
    }
    forall n | n in m
      ensures exists h :: h in held && h.symbol == n.symbol
    {
      assert n == Upper(n.symbol);
      HoldingForIsListed(holdings, n.symbol);
      var k :| 0 <= k < |holdings| && holdings[k] == HoldingFor(holdings, n.symbol).value;
      assert !Orphaned(docs, broker, holdings[k]);
      assert Governed(docs, broker, n.symbol);
      var i :| 0 <= i < |docs| && Relevant(docs[i], broker) && docs[i].symbol == n.symbol;
      assert Held(docs[i].symbol, docs[i].side, docs[i].quantity) in held;
    }
  }
}
