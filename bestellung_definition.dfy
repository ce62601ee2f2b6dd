/** The order ("Bestellung") domain model of the current handler
    revision: catalog entries, orders and their positions, and the
    computations on an order (position removal, total, tip suggestions,
    debt split, and the merged text read out when calling the service). */
module BestellungDefinition {
  import opened Text
  import opened Payment
  import Router

  const Unauthorized := "Nur der Bestellungs ersteller kann dieses Kommando ausführen"

  /** A version or an extra of an article, with its price. */
  datatype Zusatz = Zusatz(Name: string, ID: string, Preis: real)

  datatype Artikel = Artikel(Nummer: string, Name: string, ID: string, Versionen: seq<Zusatz>, Extras: seq<Zusatz>)

  datatype LieferDienst = LieferDienst(Name: string, ID: string, Telefonnummer: string, Artikel: seq<Artikel>)

  /** One line item. `Extras` is the raw extras text the orderer typed;
      `Besteller` lists who ordered it (one user when added, several after
      merging). */
  datatype Position = Position(
    ArtikelNummer: string,
    ArtikelName: string,
    Version: string,
    Extras: string,
    Einzelpreis: real,
    Anzahl: int,
    Besteller: seq<User>,
    Kommentar: string)

  /** An order. `Datum` is the creation time as the RFC 3339 text that the
      settlement comment prints. */
  datatype Bestellung = Bestellung(
    Ersteller: User,
    Datum: string,
    LieferDienst: string,
    Nummer: string,
    Positionen: seq<Position>,
    Total: real,
    Payed: real)

  // ---------------------------------------------------------------------
  // Ownership checks

  /** `isCreator`: compares the creator's Matrix ID only. */
  predicate IsCreator(b: Bestellung, id: string)
  {
    b.Ersteller.MatrixID == id
  }

  /** `isBesteller`: compares the first orderer's Matrix ID only; the code
      indexes `Besteller[0]`, so the list must not be empty. */
  predicate IsBesteller(p: Position, id: string)
    requires |p.Besteller| > 0
  {
    p.Besteller[0].MatrixID == id
  }

  /** Both checks look at Matrix IDs alone: display names, the rest of the
      order and the later orderers of a position play no part. */
  lemma OwnershipUsesMatrixIdOnly(b: Bestellung, p: Position, id: string, name: string, others: seq<User>)
    requires |p.Besteller| > 0
    ensures IsCreator(b, id) <==> IsCreator(b.(Ersteller := User(name, b.Ersteller.MatrixID), Positionen := []), id)
    ensures IsBesteller(p, id) <==> IsBesteller(p.(Besteller := [User(name, p.Besteller[0].MatrixID)] + others), id)
  {
  }

  // ---------------------------------------------------------------------
  // Position removal and totals

  /** `removePosition(i)`: drops position `i` when it is in range and
      otherwise leaves the order as it is. */
  function RemovePosition(b: Bestellung, i: int): (r: Bestellung)
    ensures r.(Positionen := b.Positionen) == b
    ensures 0 <= i < |b.Positionen| ==>
      |r.Positionen| == |b.Positionen| - 1 &&
      r.Positionen[..i] == b.Positionen[..i] &&
      r.Positionen[i..] == b.Positionen[i + 1..]
    ensures !(0 <= i < |b.Positionen|) ==> r == b
  {
    if i > -1 && i < |b.Positionen| then b.(Positionen := Router.Removed(b.Positionen, i)) else b
  }

  /** Removal keeps every other position exactly once. */
  lemma RemovePositionMultiset(b: Bestellung, i: int)
    requires 0 <= i < |b.Positionen|
    ensures multiset(RemovePosition(b, i).Positionen) + multiset{b.Positionen[i]} == multiset(b.Positionen)
  {
    var ps := b.Positionen;
    assert ps == ps[..i] + [ps[i]] + ps[i + 1..];
  }

  /** `Position.getTotal`: quantity times unit price. */
  function LineTotal(p: Position): real
  {
    Multiple(p.Anzahl, p.Einzelpreis)
  }

  /** `float64(n) * x`, written as repeated addition (or subtraction for a
      negative `n`), which keeps the line totals linear for the prover. */
  function Multiple(n: int, x: real): real
    decreases if n < 0 then -n else n
  {
    if n == 0 then 0.0
    else if n > 0 then Multiple(n - 1, x) + x
    else Multiple(n + 1, x) - x
  }

  /** The repeated addition is the product. */
  lemma {:induction false} MultipleIsProduct(n: int, x: real)
    ensures Multiple(n, x) == n as real * x
    decreases if n < 0 then -n else n
  {
    if n > 0 {
      MultipleIsProduct(n - 1, x);
      Distribute(x, (n - 1) as real, 1.0, n as real);
    } else if n < 0 {
      MultipleIsProduct(n + 1, x);
      Distribute(x, (n + 1) as real, -1.0, n as real);
    }
  }

  /** The sum of the line totals. */
  function PositionsTotal(ps: seq<Position>): real
  {
    if ps == [] then 0.0 else PositionsTotal(ps[..|ps| - 1]) + LineTotal(ps[|ps| - 1])
  }

  lemma PositionsTotalAppend(ps: seq<Position>, p: Position)
    ensures PositionsTotal(ps + [p]) == PositionsTotal(ps) + LineTotal(p)
  {
    assert (ps + [p])[..|ps|] == ps;
  }

  lemma {:induction false} PositionsTotalConcat(xs: seq<Position>, ys: seq<Position>)
    ensures PositionsTotal(xs + ys) == PositionsTotal(xs) + PositionsTotal(ys)
  {
    if ys != [] {
      var init := ys[..|ys| - 1];
      PositionsTotalConcat(xs, init);
      assert (xs + ys)[..|xs + ys| - 1] == xs + init;
      assert (xs + ys)[|xs + ys| - 1] == ys[|ys| - 1];
      assert PositionsTotal(ys) == PositionsTotal(init) + LineTotal(ys[|ys| - 1]);
    } else {
      assert xs + ys == xs;
    }
  }

  /** Removing position `i` lowers the sum of the line totals by exactly
      that position's line total. */
  lemma RemovePositionTotal(b: Bestellung, i: int)
    requires 0 <= i < |b.Positionen|
    ensures PositionsTotal(RemovePosition(b, i).Positionen) == PositionsTotal(b.Positionen) - LineTotal(b.Positionen[i])
  {
    var ps := b.Positionen;
    assert ps == ps[..i] + [ps[i]] + ps[i + 1..];
    PositionsTotalConcat(ps[..i] + [ps[i]], ps[i + 1..]);
    PositionsTotalConcat(ps[..i], ps[i + 1..]);
    PositionsTotalAppend(ps[..i], ps[i]);
  }

  /** `calcTotal`: recomputes `Total` from scratch as the sum of the line
      totals and changes nothing else. */
  method CalcTotal(b: Bestellung) returns (r: Bestellung)
    ensures r == b.(Total := PositionsTotal(b.Positionen))
  {
    var t := 0.0;
    var i := 0;
    while i < |b.Positionen|
      invariant 0 <= i <= |b.Positionen|
      invariant t == PositionsTotal(b.Positionen[..i])
    {
      assert b.Positionen[..i + 1][..i] == b.Positionen[..i];
      t := t + LineTotal(b.Positionen[i]);
      i := i + 1;
    }
    assert b.Positionen[..i] == b.Positionen;
    r := b.(Total := t);
  }

  // ---------------------------------------------------------------------
  // Tip suggestions

  /** `math.Ceil` on a real: the least integer not below `x`. */
  function Ceil(x: real): (c: int)
    ensures x <= c as real < x + 1.0
  {
    -((-x).Floor)
  }

  /** `math.Floor(x + 0.5)`: the nearest integer, halves rounded up. */
  function RoundHalfUp(x: real): (n: int)
    ensures n as real <= x + 0.5 < n as real + 1.0
  {
    (x + 0.5).Floor
  }

  datatype Tips = Tips(Up: int, Five: int, Ten: int, Twenty: int)

  /** `calcTips`: the total rounded up, and the total with 5, 10 and 20
      percent added, each rounded to the nearest integer. */
  function CalcTips(total: real): (t: Tips)
    ensures total <= t.Up as real < total + 1.0
    ensures t.Five as real <= total * 1.05 + 0.5 < t.Five as real + 1.0
    ensures t.Ten as real <= total * 1.10 + 0.5 < t.Ten as real + 1.0
    ensures t.Twenty as real <= total * 1.20 + 0.5 < t.Twenty as real + 1.0
  {
    Tips(Ceil(total), RoundHalfUp(total * 1.05), RoundHalfUp(total * 1.10), RoundHalfUp(total * 1.20))
  }

  /** For a total of 19.30 the suggestions are 20, 20, 21 and 23. */
  lemma TipsFor1930()
    ensures CalcTips(19.30) == Tips(20, 20, 21, 23)
  {
    var t := CalcTips(19.30);
    assert 20.265 <= t.Five as real + 0.5 && t.Five as real <= 20.765;
    assert 21.23 <= t.Ten as real + 0.5 && t.Ten as real <= 21.73;
    assert 23.16 <= t.Twenty as real + 0.5 && t.Twenty as real <= 23.66;
  }

  /** With a non-negative total the larger tip is never the smaller
      suggestion. */
  lemma TipsOrdered(total: real)
    requires total >= 0.0
    ensures CalcTips(total).Five <= CalcTips(total).Ten <= CalcTips(total).Twenty
  {
    var t := CalcTips(total);
    assert total * 1.05 <= total * 1.10 <= total * 1.20;
  }

  /** A row of the `getTotal` table. */
  datatype TotalRow = TotalRow(Label: string, Value: real)

  /** The rows of `getTotal`. The row labelled "15% Trinkgeld" carries the
      value computed with 20 percent. */
  function TotalRows(b: Bestellung): (rows: seq<TotalRow>)
    ensures |rows| == 5
    ensures rows[0] == TotalRow("Total", b.Total)
    ensures rows[1] == TotalRow("Aufgerundet", Ceil(b.Total) as real)
    ensures b.Total <= rows[1].Value < b.Total + 1.0
    ensures rows[2] == TotalRow("5% Trinkgeld", RoundHalfUp(b.Total * 1.05) as real)
    ensures rows[3] == TotalRow("10% Trinkgeld", RoundHalfUp(b.Total * 1.10) as real)
    ensures rows[4].Label == "15% Trinkgeld" && rows[4].Value == RoundHalfUp(b.Total * 1.20) as real
  {
    var t := CalcTips(b.Total);
    [TotalRow("Total", b.Total),
     TotalRow("Aufgerundet", t.Up as real),
     TotalRow("5% Trinkgeld", t.Five as real),
     TotalRow("10% Trinkgeld", t.Ten as real),
     TotalRow("15% Trinkgeld", t.Twenty as real)]
  }

  // ---------------------------------------------------------------------
  // Debt split

  /** Every position names at least one orderer (the code reads
      `Besteller[0]`). */
  predicate HasOrderers(ps: seq<Position>)
  {
    forall i :: 0 <= i < |ps| ==> |ps[i].Besteller| > 0
  }

  /** The first orderer and the line total of each position. */
  function Lines(ps: seq<Position>): (r: seq<Line>)
    requires HasOrderers(ps)
    ensures |r| == |ps|
    ensures forall i :: 0 <= i < |ps| ==> r[i] == Line(ps[i].Besteller[0], LineTotal(ps[i]))
  {
    if ps == [] then [] else Lines(ps[..|ps| - 1]) + [Line(ps[|ps| - 1].Besteller[0], LineTotal(ps[|ps| - 1]))]
  }

  /** The first orderers, position by position. */
  function FirstOrderers(ps: seq<Position>): (r: seq<User>)
    requires HasOrderers(ps)
    ensures |r| == |ps|
    ensures forall i :: 0 <= i < |ps| ==> r[i] == ps[i].Besteller[0]
  {
    if ps == [] then [] else FirstOrderers(ps[..|ps| - 1]) + [ps[|ps| - 1].Besteller[0]]
  }

  /** The rows `calcPayment` computes when each line total is mapped
      through `f`. */
  function Split(ps: seq<Position>, f: real -> real): seq<PaymentInfo>
    requires HasOrderers(ps)
  {
    Allocate(Scale(Lines(ps), f))
  }

  /** The rows `calcPayment` computes for the discount factor `off`. */
  function PaymentSplit(ps: seq<Position>, off: real): seq<PaymentInfo>
    requires HasOrderers(ps)
  {
    Split(ps, Times(off))
  }

  /** One step of the split: the next line is mapped and credited. */
  lemma SplitStep(ps: seq<Position>, k: nat, f: real -> real)
    requires HasOrderers(ps) && k < |ps|
    ensures HasOrderers(ps[..k]) && HasOrderers(ps[..k + 1])
    ensures Split(ps[..k + 1], f) == Credit(Split(ps[..k], f), ps[k].Besteller[0], f(LineTotal(ps[k])))
  {
    var lines := Lines(ps[..k + 1]);
    var s := Scale(lines, f);
    assert lines[..k] == Lines(ps[..k]);
    assert s[..k] == Scale(Lines(ps[..k]), f);
  }

  /** `(100 / total * payed) / 100` is `payed / total`. */
  lemma DiscountFactor(total: real, payed: real)
    requires total != 0.0
    ensures (100.0 / total * payed) / 100.0 == payed / total
  {
  }

  /** The inner loop of `calcPayment`: adds `payment` to the first row of
      `u`, or appends a row for `u` when the search finds none. */
  method CreditRow(rows: seq<PaymentInfo>, u: User, payment: real) returns (result: seq<PaymentInfo>)
    ensures result == Credit(rows, u, payment)
  {
    result := rows;
    var found := false;
    var i := 0;
    while i < |result| && !found
      decreases |rows| - i, !found
      invariant 0 <= i <= |rows| && |result| == |rows|
      invariant forall j :: 0 <= j < i ==> rows[j].Payee != u
      invariant !found ==> result == rows
      invariant found ==> i < |rows| && rows[i].Payee == u && result == rows[i := PaymentInfo(u, rows[i].Amount + payment)]
    {
      if result[i].Payee == u {
        result := result[i := PaymentInfo(result[i].Payee, result[i].Amount + payment)];
        found := true;
      } else {
        i := i + 1;
      }
    }
    if !found {
      result := result + [PaymentInfo(u, payment)];
    }
  }

  /** `calcPayment`: the discount factor `off = (100 / Total * Payed) / 100`
      (that is `Payed / Total`), and one row per first orderer, built by
      crediting each position's line total times `off` to the first row of
      its first orderer or to a new row. */
  method CalcPayment(b: Bestellung) returns (result: seq<PaymentInfo>, off: real)
    requires b.Total != 0.0 && HasOrderers(b.Positionen)
    ensures off == b.Payed / b.Total
    ensures result == PaymentSplit(b.Positionen, off)
  {
    var ps := b.Positionen;
    off := (100.0 / b.Total * b.Payed) / 100.0;
    DiscountFactor(b.Total, b.Payed);
    result := [];
    var k := 0;
    while k < |ps|
      invariant 0 <= k <= |ps|
      invariant HasOrderers(ps[..k])
      invariant result == Split(ps[..k], Times(off))
    {
      var p := ps[k];
      var payment := Times(off)(LineTotal(p));
      SplitStep(ps, k, Times(off));
      result := CreditRow(result, p.Besteller[0], payment);
      k := k + 1;
    }
    assert ps[..k] == ps;
  }

  /** The split has one row per distinct first orderer, in order of first
      appearance. */
  lemma SplitPayees(ps: seq<Position>, f: real -> real)
    requires HasOrderers(ps)
    ensures Payees(Split(ps, f)) == FirstAppearances(FirstOrderers(ps))
    ensures Distinct(Payees(Split(ps, f)))
  {
    var lines := Lines(ps);
    var scaled := Scale(lines, f);
    AllocatePayees(scaled);
    AllocateDistinct(scaled);
    ScalePayees(lines, f);
    assert LinePayees(lines) == FirstOrderers(ps);
  }

  /** With an additive `f`, each row holds `f` of the sum of the line
      totals of the positions that its payee ordered first. */
  lemma SplitAmounts(ps: seq<Position>, f: real -> real)
    requires HasOrderers(ps) && Additive(f)
    ensures forall k :: 0 <= k < |Split(ps, f)| ==>
      Split(ps, f)[k].Amount == f(UserTotal(Lines(ps), Split(ps, f)[k].Payee))
  {
    var lines := Lines(ps);
    var scaled := Scale(lines, f);
    var rows := Allocate(scaled);
    AllocateAmounts(scaled);
    forall k | 0 <= k < |rows|
      ensures rows[k].Amount == f(UserTotal(lines, rows[k].Payee))
    {
      assert rows[k].Amount == UserTotal(scaled, rows[k].Payee);
      ScaleUserTotal(lines, f, rows[k].Payee);
    }
  }

  /** With an additive `f`, the rows add up to `f` of the sum of all line
      totals. */
  lemma SplitSum(ps: seq<Position>, f: real -> real)
    requires HasOrderers(ps) && Additive(f)
    ensures SumAmounts(Split(ps, f)) == f(PositionsTotal(ps))
  {
    var lines := Lines(ps);
    AllocateSum(Scale(lines, f));
    ScaleSum(lines, f);
    LinesTotal(ps);
  }

  /** What the split of `calcPayment` promises: one row per distinct first
      orderer, in order of first appearance, each owing `off` times the sum
      of that user's line totals (`Times(off)(x)` is `x * off`). */
  lemma PaymentSplitRows(ps: seq<Position>, off: real)
    requires HasOrderers(ps)
    ensures Payees(PaymentSplit(ps, off)) == FirstAppearances(FirstOrderers(ps))
    ensures Distinct(Payees(PaymentSplit(ps, off)))
    ensures forall k :: 0 <= k < |PaymentSplit(ps, off)| ==>
      PaymentSplit(ps, off)[k].Amount == Times(off)(UserTotal(Lines(ps), PaymentSplit(ps, off)[k].Payee))
  {
    SplitPayees(ps, Times(off));
    TimesAdditive(off);
    SplitAmounts(ps, Times(off));
  }

  /** `Times(payed / total)(total)` is `payed`. */
  lemma PayedBack(sum: real, t: real, total: real, payed: real)
    requires total != 0.0 && t == total && sum == Times(payed / total)(t)
    ensures sum == payed
  {
  }

  /** When the stored total is the sum of the line totals, the split of an
      order hands out exactly the amount paid. */
  lemma PaymentSplitCoversPayed(b: Bestellung)
    requires b.Total != 0.0 && HasOrderers(b.Positionen)
    requires b.Total == PositionsTotal(b.Positionen)
    ensures SumAmounts(PaymentSplit(b.Positionen, b.Payed / b.Total)) == b.Payed
  {
    var off := b.Payed / b.Total;
    TimesAdditive(off);
    SplitSum(b.Positionen, Times(off));
    PayedBack(SumAmounts(PaymentSplit(b.Positionen, off)), PositionsTotal(b.Positionen), b.Total, b.Payed);
  }

  /** The line totals of `Lines` add up to the order's sum. */
  lemma {:induction false} LinesTotal(ps: seq<Position>)
    requires HasOrderers(ps)
    ensures SumLines(Lines(ps)) == PositionsTotal(ps)
  {
    if ps != [] {
      LinesTotal(ps[..|ps| - 1]);
      assert Lines(ps)[..|ps| - 1] == Lines(ps[..|ps| - 1]);
    }
  }

  /** A row of the `getPayment` table. */
  datatype DebtRow = DebtRow(Name: string, Schulden: real)

  /** The rows of `getPayment`: the discount, then each payee's display
      name and amount. */
  function DebtRows(rows: seq<PaymentInfo>): (r: seq<DebtRow>)
    ensures |r| == |rows|
    ensures forall k :: 0 <= k < |rows| ==> r[k] == DebtRow(rows[k].Payee.DisplayName, rows[k].Amount)
  {
    if rows == [] then [] else DebtRows(rows[..|rows| - 1]) + [DebtRow(rows[|rows| - 1].Payee.DisplayName, rows[|rows| - 1].Amount)]
  }

  // ---------------------------------------------------------------------
  // Call text

  /** The fields `isSameAs` compares. */
  datatype Key = Key(ArtikelName: string, ArtikelNummer: string, Version: string, Extras: string, Kommentar: string)

  function KeyOf(p: Position): Key
  {
    Key(p.ArtikelName, p.ArtikelNummer, p.Version, p.Extras, p.Kommentar)
  }

  /** `isSameAs`: equal name, number, version, extras and comment. */
  predicate IsSameAs(p: Position, p2: Position)
  {
    p.ArtikelName == p2.ArtikelName && p.ArtikelNummer == p2.ArtikelNummer &&
    p.Version == p2.Version && p.Extras == p2.Extras && p.Kommentar == p2.Kommentar
  }

  /** `isSameAs` is equality of keys, hence an equivalence relation, and it
      ignores price, quantity and orderers. */
  lemma IsSameAsIsKeyEquality(p: Position, q: Position, price: real, n: int, us: seq<User>)
    ensures IsSameAs(p, q) <==> KeyOf(p) == KeyOf(q)
    ensures IsSameAs(p, p.(Einzelpreis := price, Anzahl := n, Besteller := us))
  {
  }

  function Keys(ps: seq<Position>): (ks: seq<Key>)
    ensures |ks| == |ps|
    ensures forall i :: 0 <= i < |ps| ==> ks[i] == KeyOf(ps[i])
  {
    if ps == [] then [] else Keys(ps[..|ps| - 1]) + [KeyOf(ps[|ps| - 1])]
  }

  /** The first merged position equivalent to `p`, or `|ms|`. */
  function FindSame(ms: seq<Position>, p: Position): (k: nat)
    ensures k <= |ms|
    ensures forall j :: 0 <= j < k ==> !IsSameAs(p, ms[j])
    ensures k < |ms| ==> IsSameAs(p, ms[k])
  {
    if ms == [] then 0 else if IsSameAs(p, ms[0]) then 0 else 1 + FindSame(ms[1..], p)
  }

  /** Folds `p` into an equivalent position: quantities add up and the
      orderers are appended. */
  function Bump(m: Position, p: Position): Position
  {
    m.(Anzahl := m.Anzahl + p.Anzahl, Besteller := m.Besteller + p.Besteller)
  }

  /** One step of the merge loop. */
  function MergeInto(ms: seq<Position>, p: Position): seq<Position>
  {
    var k := FindSame(ms, p);
    if k < |ms| then ms[k := Bump(ms[k], p)] else ms + [p]
  }

  /** The merged positions `getCallText` reads out. */
  function Merge(ps: seq<Position>): seq<Position>
  {
    if ps == [] then [] else MergeInto(Merge(ps[..|ps| - 1]), ps[|ps| - 1])
  }

  /** The reference for one merged position: the first position with key
      `k`, with the quantities of all positions with that key added up and
      their orderers concatenated in order. */
  function Combined(ps: seq<Position>, k: Key): Position
    requires k in Keys(ps)
  {
    var init, last := ps[..|ps| - 1], ps[|ps| - 1];
    assert Keys(ps) == Keys(init) + [KeyOf(last)];
    if KeyOf(last) != k then Combined(init, k)
    else if k in Keys(init) then Bump(Combined(init, k), last)
    else last
  }

  /** The inner loop of the merge: the first equivalent merged position
      absorbs `p`, or `p` is appended. */
  method MergeRow(ms: seq<Position>, p: Position) returns (result: seq<Position>)
    ensures result == MergeInto(ms, p)
  {
    result := ms;
    var added := false;
    var i := 0;
    while i < |result| && !added
      decreases |ms| - i, !added
      invariant 0 <= i <= |ms| && |result| == |ms|
      invariant forall j :: 0 <= j < i ==> !IsSameAs(p, ms[j])
      invariant !added ==> result == ms
      invariant added ==> i < |ms| && IsSameAs(p, ms[i]) && result == ms[i := Bump(ms[i], p)]
    {
      if IsSameAs(p, result[i]) {
        result := result[i := result[i].(Anzahl := result[i].Anzahl + p.Anzahl, Besteller := result[i].Besteller + p.Besteller)];
        added := true;
      } else {
        i := i + 1;
      }
    }
    if !added {
      result := result + [p];
    }
  }

  /** The merge loop of `getCallText`: each position is folded into the
      merged list in order. */
  method MergePositions(ps: seq<Position>) returns (ms: seq<Position>)
    ensures ms == Merge(ps)
  {
    ms := [];
    var k := 0;
    while k < |ps|
      invariant 0 <= k <= |ps|
      invariant ms == Merge(ps[..k])
    {
      assert ps[..k + 1][..k] == ps[..k];
      ms := MergeRow(ms, ps[k]);
      k := k + 1;
    }
    assert ps[..k] == ps;
  }

  /** How one merge step changes the keys: an equivalent position leaves
      them as they are, a new key is appended. */
  lemma MergeIntoKeys(ms: seq<Position>, p: Position)
    ensures KeyOf(p) in Keys(ms) ==> Keys(MergeInto(ms, p)) == Keys(ms)
    ensures KeyOf(p) !in Keys(ms) ==> Keys(MergeInto(ms, p)) == Keys(ms) + [KeyOf(p)]
    ensures FindSame(ms, p) < |ms| <==> KeyOf(p) in Keys(ms)
  {
    var k := FindSame(ms, p);
    var ks := Keys(ms);
    if k < |ms| {
      assert ks[k] == KeyOf(p);
      assert Keys(MergeInto(ms, p)) == ks;
    } else {
      forall j | 0 <= j < |ms| ensures ks[j] != KeyOf(p) {
        assert !IsSameAs(p, ms[j]);
      }
      assert Keys(MergeInto(ms, p)) == ks + [KeyOf(p)];
    }
  }

  /** The merged positions have pairwise different keys, which are
      exactly the keys of the input. */
  lemma {:induction false} MergeKeys(ps: seq<Position>)
    ensures Distinct(Keys(Merge(ps)))
    ensures forall k :: k in Keys(Merge(ps)) <==> k in Keys(ps)
  {
    if ps != [] {
      var init, p := ps[..|ps| - 1], ps[|ps| - 1];
      MergeKeys(init);
      MergeIntoKeys(Merge(init), p);
      assert Keys(ps) == Keys(init) + [KeyOf(p)];
    }
  }

  /** No two merged positions are equivalent under `isSameAs`. */
  lemma MergeNoDuplicates(ps: seq<Position>)
    ensures forall i, j :: 0 <= i < j < |Merge(ps)| ==> !IsSameAs(Merge(ps)[i], Merge(ps)[j])
  {
    MergeKeys(ps);
    var ks := Keys(Merge(ps));
    forall i, j | 0 <= i < j < |Merge(ps)| ensures !IsSameAs(Merge(ps)[i], Merge(ps)[j]) {
      assert ks[i] != ks[j];
    }
  }

  /** Each merged position is the reference combination of all input
      positions with its key. */
  lemma {:induction false} MergeCombined(ps: seq<Position>)
    ensures forall j :: 0 <= j < |Merge(ps)| ==>
      KeyOf(Merge(ps)[j]) in Keys(ps) && Merge(ps)[j] == Combined(ps, KeyOf(Merge(ps)[j]))
  {
    if ps != [] {
      var init, p := ps[..|ps| - 1], ps[|ps| - 1];
      MergeCombined(init);
      MergeKeys(init);
      var ms0 := Merge(init);
      var ms := Merge(ps);
      assert ps == init + [p];
      forall j | 0 <= j < |ms|
        ensures KeyOf(ms[j]) in Keys(ps) && ms[j] == Combined(ps, KeyOf(ms[j]))
      {
        MergeStepCombined(init, p, j);
      }
    }
  }

  /** The inductive step of `MergeCombined` for one merged position. */
  lemma MergeStepCombined(init: seq<Position>, p: Position, j: nat)
    requires Distinct(Keys(Merge(init)))
    requires forall k :: k in Keys(Merge(init)) <==> k in Keys(init)
    requires forall i :: 0 <= i < |Merge(init)| ==>
      KeyOf(Merge(init)[i]) in Keys(init) && Merge(init)[i] == Combined(init, KeyOf(Merge(init)[i]))
    requires j < |Merge(init + [p])|
    ensures KeyOf(Merge(init + [p])[j]) in Keys(init + [p])
    ensures Merge(init + [p])[j] == Combined(init + [p], KeyOf(Merge(init + [p])[j]))
  {
    var ps := init + [p];
    assert ps[..|ps| - 1] == init;
    var ms0 := Merge(init);
    var ms := Merge(ps);
    var ks0 := Keys(ms0);
    MergeIntoKeys(ms0, p);
    assert Keys(ps) == Keys(init) + [KeyOf(p)];
    var k := FindSame(ms0, p);
    if k < |ms0| {
      assert ms == ms0[k := Bump(ms0[k], p)];
      assert ks0[k] == KeyOf(p);
      if j != k {
        assert ks0[j] == KeyOf(ms0[j]) != KeyOf(p);
      }
    } else {
      assert ms == ms0 + [p];
      if j < |ms0| {
        assert ks0[j] == KeyOf(ms0[j]);
      }
    }
  }

  /** The sum of the quantities. */
  function SumAnzahl(ps: seq<Position>): int
  {
    if ps == [] then 0 else SumAnzahl(ps[..|ps| - 1]) + ps[|ps| - 1].Anzahl
  }

  lemma {:induction false} SumAnzahlUpdate(ps: seq<Position>, k: nat, p: Position)
    requires k < |ps|
    ensures SumAnzahl(ps[k := p]) == SumAnzahl(ps) - ps[k].Anzahl + p.Anzahl
  {
    var n := |ps|;
    if k < n - 1 {
      assert ps[k := p][..n - 1] == ps[..n - 1][k := p];
      SumAnzahlUpdate(ps[..n - 1], k, p);
    } else {
      assert ps[k := p][..n - 1] == ps[..n - 1];
    }
  }

  /** One merge step adds the folded position's quantity. */
  lemma MergeIntoAnzahl(ms: seq<Position>, p: Position)
    ensures SumAnzahl(MergeInto(ms, p)) == SumAnzahl(ms) + p.Anzahl
  {
    var k := FindSame(ms, p);
    if k < |ms| {
      SumAnzahlUpdate(ms, k, Bump(ms[k], p));
    } else {
      assert (ms + [p])[..|ms|] == ms;
    }
  }

  /** Merging keeps the total quantity. */
  lemma {:induction false} MergeAnzahl(ps: seq<Position>)
    ensures SumAnzahl(Merge(ps)) == SumAnzahl(ps)
  {
    if ps != [] {
      var init, p := ps[..|ps| - 1], ps[|ps| - 1];
      MergeAnzahl(init);
      MergeIntoAnzahl(Merge(init), p);
    }
  }

  const Greeting := "Hallo Nord mein Name" + " ich würde gerne" + " Bestellen und zwar: "

  /** The three header lines (service, phone number, greeting), with an
      empty line before the greeting. */
  function Header(b: Bestellung): string
  {
    "Lieferdienst: " + b.LieferDienst + "\n" +
    "Telefonnummer: " + b.Nummer + "\n" + "\n" +
    Greeting + "\n"
  }

  /** One line of the call text without its line break: the count, "mal",
      "die Nummer <n>" only when the article has a number, then name,
      version, extras and comment. */
  function LineBody(p: Position): string
  {
    LineHead(p) + LineRest(p)
  }

  function LineHead(p: Position): string
  {
    IntToString(p.Anzahl) + " mal " + (if p.ArtikelNummer != "" then "die Nummer " + p.ArtikelNummer + " " else "")
  }

  function LineRest(p: Position): string
  {
    p.ArtikelName + " in " + p.Version + " mit " + p.Extras + " " + p.Kommentar
  }

  function RenderLine(p: Position): string
  {
    LineBody(p) + "\n"
  }

  function RenderLines(ms: seq<Position>): string
  {
    if ms == [] then "" else RenderLines(ms[..|ms| - 1]) + RenderLine(ms[|ms| - 1])
  }

  /** The text `getCallText` returns. */
  function CallText(b: Bestellung): string
  {
    Header(b) + RenderLines(Merge(b.Positionen))
  }

  /** `getCallText`: merges the positions, then renders the header and one
      line per merged position. */
  method GetCallText(b: Bestellung) returns (result: string)
    ensures result == CallText(b)
  {
    var ms := MergePositions(b.Positionen);
    var lines := "";
    var i := 0;
    while i < |ms|
      invariant 0 <= i <= |ms|
      invariant lines == RenderLines(ms[..i])
    {
      assert ms[..i + 1][..i] == ms[..i];
      lines := lines + RenderLine(ms[i]);
      i := i + 1;
    }
    assert ms[..i] == ms;
    result := Header(b) + lines;
  }

  /** A line for an article with a number starts with the count, "mal",
      "die Nummer" and the number. */
  lemma RenderLineNumbered(p: Position)
    requires p.ArtikelNummer != ""
    ensures HasPrefix(RenderLine(p), IntToString(p.Anzahl) + " mal " + ("die Nummer " + p.ArtikelNummer + " "))
  {
    assert RenderLine(p) == LineHead(p) + (LineRest(p) + "\n");
  }

  /** A line for an article without a number has the article name directly
      after the count and "mal". */
  lemma RenderLineUnnumbered(p: Position)
    requires p.ArtikelNummer == ""
    ensures HasPrefix(RenderLine(p), IntToString(p.Anzahl) + " mal " + p.ArtikelName)
  {
    var q := IntToString(p.Anzahl) + " mal ";
    var r2 := " in " + p.Version + " mit " + p.Extras + " " + p.Kommentar;
    assert LineHead(p) == q;
    assert LineRest(p) == p.ArtikelName + r2;
    assert RenderLine(p) == (q + p.ArtikelName) + (r2 + "\n");
  }

  /** No field that `isSameAs` compares contains a line break. */
  predicate SingleLine(k: Key)
  {
    '\n' !in k.ArtikelName && '\n' !in k.ArtikelNummer && '\n' !in k.Version && '\n' !in k.Extras && '\n' !in k.Kommentar
  }

  lemma RenderLineNewlines(p: Position)
    requires SingleLine(KeyOf(p))
    ensures Occurrences(RenderLine(p), '\n') == 1
  {
    var n := IntToString(p.Anzahl);
    assert '\n' !in n;
    assert '\n' !in LineHead(p) && '\n' !in LineRest(p);
    OccurrencesAppend(LineBody(p), "\n", '\n');
  }

  lemma {:induction false} RenderLinesNewlines(ms: seq<Position>)
    requires forall j :: 0 <= j < |ms| ==> SingleLine(KeyOf(ms[j]))
    ensures Occurrences(RenderLines(ms), '\n') == |ms|
  {
    if ms != [] {
      RenderLinesNewlines(ms[..|ms| - 1]);
      RenderLineNewlines(ms[|ms| - 1]);
      OccurrencesAppend(RenderLines(ms[..|ms| - 1]), RenderLine(ms[|ms| - 1]), '\n');
    }
  }

  /** A text without line breaks followed by one has exactly one. */
  lemma OneLine(x: string)
    requires '\n' !in x
    ensures Occurrences(x + "\n", '\n') == 1
  {
    OccurrencesAppend(x, "\n", '\n');
  }

  lemma HeaderNewlines(b: Bestellung)
    requires '\n' !in b.LieferDienst && '\n' !in b.Nummer
    ensures Occurrences(Header(b), '\n') == 4
  {
    var l1 := "Lieferdienst: " + b.LieferDienst + "\n";
    var l2 := "Telefonnummer: " + b.Nummer + "\n";
    var l4 := Greeting + "\n";
    assert Header(b) == l1 + l2 + "\n" + l4;
    assert Occurrences(l1, '\n') == 1 by { OneLine("Lieferdienst: " + b.LieferDienst); }
    assert Occurrences(l2, '\n') == 1 by { OneLine("Telefonnummer: " + b.Nummer); }
    assert Occurrences(l4, '\n') == 1 by { assert '\n' !in Greeting; OneLine(Greeting); }
    assert Occurrences("\n", '\n') == 1 by { OneLine(""); assert "" + "\n" == "\n"; }
    OccurrencesAppend(l1, l2, '\n');
    OccurrencesAppend(l1 + l2, "\n", '\n');
    OccurrencesAppend(l1 + l2 + "\n", l4, '\n');
  }

  /** When no field holds a line break, the call text has four line
      breaks for the header (three lines and an empty one) and one per
      merged position. */
  lemma CallTextLines(b: Bestellung)
    requires '\n' !in b.LieferDienst && '\n' !in b.Nummer
    requires forall i :: 0 <= i < |b.Positionen| ==> SingleLine(KeyOf(b.Positionen[i]))
    ensures Occurrences(CallText(b), '\n') == 4 + |Merge(b.Positionen)|
  {
    var ps := b.Positionen;
    var ms := Merge(ps);
    MergeCombined(ps);
    forall j | 0 <= j < |ms| ensures SingleLine(KeyOf(ms[j])) {
      var i :| 0 <= i < |ps| && Keys(ps)[i] == KeyOf(ms[j]);
    }
    RenderLinesNewlines(ms);
    HeaderNewlines(b);
    OccurrencesAppend(Header(b), RenderLines(ms), '\n');
  }
}
