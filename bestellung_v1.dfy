/** The earlier revision of the order handler (`bestellungHandler.go`). Its
    data model has no extras, no ids and no creation date, and several
    commands behave differently from the current revision: removing a
    position needs the creator AND the first orderer, the merge key has no
    extras, the payment view leaves out the creator, the paid amount is
    not stored, and a ledger link is the typed user name. The list
    computations are stated against the current revision's definitions,
    through the embedding `Current`. */
module BestellungV1 {
  import opened Wrappers
  import opened Text
  import opened Payment
  import D = BestellungDefinition
  import C = BestellungCommands
  import Router

  datatype Version = Version(Name: string, Preis: real)

  datatype Artikel = Artikel(Nummer: string, Name: string, Versionen: seq<Version>)

  datatype LieferDienst = LieferDienst(Name: string, Telefonnummer: string, Artikel: seq<Artikel>)

  datatype Position = Position(
    ArtikelNummer: string,
    ArtikelName: string,
    Version: string,
    Einzelpreis: real,
    Anzahl: int,
    Besteller: seq<User>,
    Kommentar: string)

  datatype Bestellung = Bestellung(
    Ersteller: User,
    LieferDienst: string,
    Nummer: string,
    Positionen: seq<Position>,
    Total: real,
    Payed: real)

  const ArticleNotFound := "Artikel nicht gefunden, benutze !bestellung $Lieferdienst artikel für eine Liste"

  // The argument counts the handlers pass to `SplitAnswer`.
  const AddSet := Router.SubHandlerSet("", "", 2, 3)
  const PrintPaymentSet := Router.SubHandlerSet("", "", 1, 1)
  const RemoveSet := Router.SubHandlerSet("", "", 2, 0)
  const CloseSet := Router.SubHandlerSet("", "", 1, 0)
  const AddStrichlisteSet := Router.SubHandlerSet("", "", 1, 0)

  // ---------------------------------------------------------------------
  // The order model

  /** `isCreator`: the creator's Matrix ID only. */
  predicate IsCreator(b: Bestellung, id: string)
  {
    b.Ersteller.MatrixID == id
  }

  /** `isBesteller`: the first orderer's Matrix ID only. */
  predicate IsBesteller(p: Position, id: string)
    requires |p.Besteller| > 0
  {
    p.Besteller[0].MatrixID == id
  }

  /** A position of this revision as the current revision would hold it:
      the same fields and an empty extras text. */
  function Current(p: Position): (q: D.Position)
    ensures q.Extras == "" && q.Besteller == p.Besteller && q.Anzahl == p.Anzahl && q.Einzelpreis == p.Einzelpreis
  {
    D.Position(p.ArtikelNummer, p.ArtikelName, p.Version, "", p.Einzelpreis, p.Anzahl, p.Besteller, p.Kommentar)
  }

  function Currents(ps: seq<Position>): (qs: seq<D.Position>)
    ensures |qs| == |ps|
    ensures forall i :: 0 <= i < |ps| ==> qs[i] == Current(ps[i])
  {
    if ps == [] then [] else Currents(ps[..|ps| - 1]) + [Current(ps[|ps| - 1])]
  }

  /** Every position names an orderer. */
  predicate HasOrderers(ps: seq<Position>)
  {
    forall i :: 0 <= i < |ps| ==> |ps[i].Besteller| > 0
  }

  lemma CurrentsHaveOrderers(ps: seq<Position>)
    requires HasOrderers(ps)
    ensures D.HasOrderers(Currents(ps))
  {
    var qs := Currents(ps);
    forall i | 0 <= i < |qs| ensures |qs[i].Besteller| > 0 {
      assert qs[i] == Current(ps[i]);
    }
  }

  /** `removePosition(i)`: drops position `i` when it is in range and
      otherwise leaves the order as it is. */
  function RemovePosition(b: Bestellung, i: int): (r: Bestellung)
    ensures r.(Positionen := b.Positionen) == b
    ensures 0 <= i < |b.Positionen| ==>
      |r.Positionen| == |b.Positionen| - 1 &&
      r.Positionen[..i] == b.Positionen[..i] &&
      r.Positionen[i..] == b.Positionen[i + 1..]
    ensures !(0 <= i < |b.Positionen|) ==> r == b
  {
    if i > -1 && i < |b.Positionen| then b.(Positionen := Router.Removed(b.Positionen, i)) else b
  }

  /** `getTotal` of a position, as in the current revision. */
  function LineTotal(p: Position): real
  {
    D.LineTotal(Current(p))
  }

  /** The sum of the line totals, as in the current revision. */
  function PositionsTotal(ps: seq<Position>): real
  {
    D.PositionsTotal(Currents(ps))
  }

  /** Removing position `i` lowers the sum by that position's line total,
      as in the current revision. */
  lemma RemovePositionTotal(b: Bestellung, i: int)
    requires 0 <= i < |b.Positionen|
    ensures PositionsTotal(RemovePosition(b, i).Positionen) == PositionsTotal(b.Positionen) - LineTotal(b.Positionen[i])
  {
    var ps := b.Positionen;
    var qs := Currents(ps);
    var cb := D.Bestellung(b.Ersteller, "", b.LieferDienst, b.Nummer, qs, b.Total, b.Payed);
    var rs := Currents(RemovePosition(b, i).Positionen);
    var ds := D.RemovePosition(cb, i).Positionen;
    assert rs == ds by {
      assert |rs| == |ds|;
      forall k | 0 <= k < |rs| ensures rs[k] == ds[k] {
        if k < i {
          assert ds[k] == ds[..i][k] == qs[k];
          assert RemovePosition(b, i).Positionen[k] == RemovePosition(b, i).Positionen[..i][k] == ps[k];
        } else {
          assert ds[k] == ds[i..][k - i] == qs[k + 1];
          assert RemovePosition(b, i).Positionen[k] == RemovePosition(b, i).Positionen[i..][k - i] == ps[k + 1];
        }
      }
    }
    D.RemovePositionTotal(cb, i);
  }

  /** `calcTotal`: recomputes `Total` as the sum of the line totals and
      changes nothing else. */
  method CalcTotal(b: Bestellung) returns (r: Bestellung)
    ensures r == b.(Total := PositionsTotal(b.Positionen))
  {
    var ps := b.Positionen;
    var t := 0.0;
    var i := 0;
    while i < |ps|
      invariant 0 <= i <= |ps|
      invariant t == D.PositionsTotal(Currents(ps[..i]))
    {
      assert Currents(ps[..i + 1]) == Currents(ps[..i]) + [Current(ps[i])];
      D.PositionsTotalAppend(Currents(ps[..i]), Current(ps[i]));
      t := t + LineTotal(ps[i]);
      i := i + 1;
    }
    assert ps[..i] == ps;
    r := b.(Total := t);
  }

  /** `calcPayment`: the same factor and the same rows as the current
      revision computes for the embedded positions. */
  method CalcPayment(b: Bestellung) returns (result: seq<PaymentInfo>, off: real)
    requires b.Total != 0.0 && HasOrderers(b.Positionen)
    ensures off == b.Payed / b.Total
    ensures D.HasOrderers(Currents(b.Positionen))
    ensures result == D.PaymentSplit(Currents(b.Positionen), off)
  {
    var ps := b.Positionen;
    var qs := Currents(ps);
    CurrentsHaveOrderers(ps);
    off := (100.0 / b.Total * b.Payed) / 100.0;
    D.DiscountFactor(b.Total, b.Payed);
    result := [];
    var k := 0;
    while k < |ps|
      invariant 0 <= k <= |ps|
      invariant D.HasOrderers(qs[..k])
      invariant result == D.Split(qs[..k], Times(off))
    {
      var p := ps[k];
      var payment := Times(off)(LineTotal(p));
      D.SplitStep(qs, k, Times(off));
      assert qs[k] == Current(p);
      result := D.CreditRow(result, p.Besteller[0], payment);
      k := k + 1;
    }
    assert qs[..k] == qs;
  }

  /** The split has one row per user who ordered a position first, no two
      rows for the same user, and each row owes `off` times the sum of that
      user's line totals. */
  lemma PaymentSplitRows(ps: seq<Position>, off: real)
    requires HasOrderers(ps)
    ensures D.HasOrderers(Currents(ps))
    ensures forall u :: u in Payees(D.PaymentSplit(Currents(ps), off)) <==>
      exists i :: 0 <= i < |ps| && ps[i].Besteller[0] == u
    ensures Distinct(Payees(D.PaymentSplit(Currents(ps), off)))
    ensures forall k :: 0 <= k < |D.PaymentSplit(Currents(ps), off)| ==>
      D.PaymentSplit(Currents(ps), off)[k].Amount ==
      Times(off)(UserTotal(D.Lines(Currents(ps)), D.PaymentSplit(Currents(ps), off)[k].Payee))
  {
    var qs := Currents(ps);
    CurrentsHaveOrderers(ps);
    D.PaymentSplitRows(qs, off);
    var fs := D.FirstOrderers(qs);
    forall u ensures u in FirstAppearances(fs) <==> exists i :: 0 <= i < |ps| && ps[i].Besteller[0] == u {
      FirstAppearancesMembers(fs, u);
      if u in fs {
        var i :| 0 <= i < |fs| && fs[i] == u;
        assert qs[i] == Current(ps[i]);
      }
      if exists i :: 0 <= i < |ps| && ps[i].Besteller[0] == u {
        var i :| 0 <= i < |ps| && ps[i].Besteller[0] == u;
        assert fs[i] == qs[i].Besteller[0];
      }
    }
  }

  /** The rows without the ones of `u`. */
  function WithoutPayee(rows: seq<PaymentInfo>, u: User): (r: seq<PaymentInfo>)
    ensures |r| <= |rows|
    ensures forall x :: x in r <==> x in rows && x.Payee != u
  {
    if rows == [] then []
    else
      var init := WithoutPayee(rows[..|rows| - 1], u);
      var last := rows[|rows| - 1];
      assert rows == rows[..|rows| - 1] + [last];
      if last.Payee == u then init else init + [last]
  }

  /** When every payee has one row, leaving out a payee who has a row
      removes exactly one row. */
  lemma {:induction false} WithoutPayeeOne(rows: seq<PaymentInfo>, u: User)
    requires Distinct(Payees(rows)) && u in Payees(rows)
    ensures |WithoutPayee(rows, u)| == |rows| - 1
  {
    var init, last := rows[..|rows| - 1], rows[|rows| - 1];
    assert Payees(init) == Payees(rows)[..|rows| - 1];
    if last.Payee == u {
      WithoutPayeeAll(init, u);
    } else {
      var k :| 0 <= k < |rows| && Payees(rows)[k] == u;
      assert k < |init|;
      assert Payees(init)[k] == u;
      WithoutPayeeOne(init, u);
    }
  }

  /** Leaving out a payee without rows keeps every row. */
  lemma {:induction false} WithoutPayeeAll(rows: seq<PaymentInfo>, u: User)
    requires u !in Payees(rows)
    ensures WithoutPayee(rows, u) == rows
  {
    if rows != [] {
      var init := rows[..|rows| - 1];
      assert Payees(init) == Payees(rows)[..|rows| - 1];
      WithoutPayeeAll(init, u);
      assert Payees(rows)[|rows| - 1] == rows[|rows| - 1].Payee;
      assert init + [rows[|rows| - 1]] == rows;
    }
  }

  /** The `getPayment` view of this revision: the discount, then the rows
      of every payee except the creator (compared as a whole user). */
  function PaymentView(b: Bestellung): C.Reply
  {
    if !HasOrderers(b.Positionen) then C.Panic
    else if b.Total == 0.0 then C.NonFinite
    else
      var off := b.Payed / b.Total;
      C.PaymentTable(off, D.DebtRows(WithoutPayee(D.PaymentSplit(Currents(b.Positionen), off), b.Ersteller)))
  }

  /** The creator's own row is not shown: when the creator ordered a
      position first, the view has one row fewer than the split; otherwise
      it has all of them. */
  lemma PaymentViewRows(b: Bestellung)
    requires b.Total != 0.0 && HasOrderers(b.Positionen)
    ensures PaymentView(b).PaymentTable?
    ensures var rows := D.PaymentSplit(Currents(b.Positionen), b.Payed / b.Total);
      |PaymentView(b).Rows| == if b.Ersteller in Payees(rows) then |rows| - 1 else |rows|
  {
    var rows := D.PaymentSplit(Currents(b.Positionen), b.Payed / b.Total);
    PaymentSplitRows(b.Positionen, b.Payed / b.Total);
    if b.Ersteller in Payees(rows) {
      WithoutPayeeOne(rows, b.Ersteller);
    } else {
      WithoutPayeeAll(rows, b.Ersteller);
    }
  }

  /** `getPayment`: the loop over the split that skips the creator's row. */
  method GetPayment(b: Bestellung) returns (reply: C.Reply)
    ensures reply == PaymentView(b)
  {
    if !HasOrderers(b.Positionen) {
      return C.Panic;
    }
    if b.Total == 0.0 {
      return C.NonFinite;
    }
    var pi, off := CalcPayment(b);
    var rows := ShownRows(pi, b.Ersteller);
    reply := C.PaymentTable(off, rows);
  }

  /** The loop of `getPayment`: a row for every payee but the creator. */
  method ShownRows(pi: seq<PaymentInfo>, creator: User) returns (rows: seq<D.DebtRow>)
    ensures rows == D.DebtRows(WithoutPayee(pi, creator))
  {
    rows := [];
    var k := 0;
    while k < |pi|
      invariant 0 <= k <= |pi|
      invariant rows == D.DebtRows(WithoutPayee(pi[..k], creator))
    {
      WithoutPayeeStep(pi, k, creator);
      var p := pi[k];
      if p.Payee != creator {
        DebtRowsAppend(WithoutPayee(pi[..k], creator), p);
        rows := rows + [D.DebtRow(p.Payee.DisplayName, p.Amount)];
      }
      k := k + 1;
    }
    assert pi[..k] == pi;
  }

  lemma WithoutPayeeStep(pi: seq<PaymentInfo>, k: nat, u: User)
    requires k < |pi|
    ensures WithoutPayee(pi[..k + 1], u) == WithoutPayee(pi[..k], u) + (if pi[k].Payee != u then [pi[k]] else [])
  {
    assert pi[..k + 1][..k] == pi[..k];
  }

  lemma DebtRowsAppend(w: seq<PaymentInfo>, p: PaymentInfo)
    ensures D.DebtRows(w + [p]) == D.DebtRows(w) + [D.DebtRow(p.Payee.DisplayName, p.Amount)]
  {
    assert (w + [p])[..|w|] == w;
  }

  // ---------------------------------------------------------------------
  // The merge key

  /** `isSameAs` of this revision: name, number, version and comment. */
  predicate IsSameAs(p: Position, p2: Position)
  {
    p.ArtikelName == p2.ArtikelName && p.ArtikelNummer == p2.ArtikelNummer &&
    p.Version == p2.Version && p.Kommentar == p2.Kommentar
  }

  /** It is the current `isSameAs` on the embedded positions, and an
      equivalence relation that ignores price, quantity and orderers. */
  lemma IsSameAsCurrent(p: Position, q: Position, r: Position, price: real, n: int, us: seq<User>)
    ensures IsSameAs(p, q) <==> D.IsSameAs(Current(p), Current(q))
    ensures IsSameAs(p, p) && (IsSameAs(p, q) ==> IsSameAs(q, p))
    ensures IsSameAs(p, q) && IsSameAs(q, r) ==> IsSameAs(p, r)
    ensures IsSameAs(p, p.(Einzelpreis := price, Anzahl := n, Besteller := us))
  {
  }

  /** A position of the current revision without its extras text. */
  function Earlier(q: D.Position): Position
  {
    Position(q.ArtikelNummer, q.ArtikelName, q.Version, q.Einzelpreis, q.Anzahl, q.Besteller, q.Kommentar)
  }

  /** Two orders of the same article that differ only in their extras are
      merged by this revision and kept apart by the current one. */
  lemma ExtrasSplitMerge(q: D.Position, extras: string)
    requires extras != q.Extras
    ensures IsSameAs(Earlier(q), Earlier(q.(Extras := extras)))
    ensures !D.IsSameAs(q, q.(Extras := extras))
  {
  }

  // ---------------------------------------------------------------------
  // Catalog lookups

  function NamedService(ld: string): LieferDienst -> bool
  {
    (l: LieferDienst) => ld == ToLower(l.Name)
  }

  function NamedArticle(artikel: string): Artikel -> bool
  {
    (a: Artikel) => artikel == ToLower(a.Name) || artikel == ToLower(a.Nummer)
  }

  function NamedVersion(version: string): Version -> bool
  {
    (v: Version) => version == ToLower(v.Name)
  }

  /** The version `addtoOrder` takes: the first one, unless there are
      several and one matches the given name, in which case the first
      match. */
  function ChosenVersion(a: Artikel, version: string): (v: Version)
    requires |a.Versionen| > 0
    ensures v in a.Versionen
    ensures FirstWhere(a.Versionen, NamedVersion(version)) == |a.Versionen| ==> v == a.Versionen[0]
    ensures |a.Versionen| > 1 && FirstWhere(a.Versionen, NamedVersion(version)) < |a.Versionen| ==>
      NamedVersion(version)(v) && v == a.Versionen[FirstWhere(a.Versionen, NamedVersion(version))]
  {
    var k := FirstWhere(a.Versionen, NamedVersion(version));
    if |a.Versionen| > 1 && k < |a.Versionen| then a.Versionen[k] else a.Versionen[0]
  }

  method ChooseVersion(a: Artikel, version: string) returns (v: Version)
    requires |a.Versionen| > 0
    ensures v == ChosenVersion(a, version)
  {
    v := a.Versionen[0];
    if |a.Versionen| > 1 {
      var found, k := C.Find(a.Versionen, NamedVersion(version));
      if found {
        v := a.Versionen[k];
      }
    }
  }

  // ---------------------------------------------------------------------
  // Handlers

  /** An order is consistent when every position names an orderer and the
      stored total is the sum of the line totals. */
  predicate Consistent(b: Bestellung)
  {
    HasOrderers(b.Positionen) && b.Total == PositionsTotal(b.Positionen)
  }

  function WithPosition(b: Bestellung, p: Position): Bestellung
  {
    var ps := b.Positionen + [p];
    b.(Positionen := ps, Total := PositionsTotal(ps))
  }

  function WithoutPosition(b: Bestellung, i: int): Bestellung
  {
    var r := RemovePosition(b, i);
    r.(Total := PositionsTotal(r.Positionen))
  }

  /** The order `printPayment` shows: a non-zero parsed amount is the paid
      amount, otherwise the total is. */
  function WithPayed(b: Bestellung, payed: real): Bestellung
  {
    b.(Payed := if payed != 0.0 then payed else b.Total)
  }

  lemma WithPositionConsistent(b: Bestellung, p: Position)
    requires Consistent(b) && |p.Besteller| > 0
    ensures Consistent(WithPosition(b, p))
    ensures WithPosition(b, p).Total == b.Total + LineTotal(p)
  {
    var ps := b.Positionen;
    assert Currents(ps + [p]) == Currents(ps) + [Current(p)];
    D.PositionsTotalAppend(Currents(ps), Current(p));
  }

  lemma WithoutPositionConsistent(b: Bestellung, i: int)
    requires Consistent(b) && 0 <= i < |b.Positionen|
    ensures Consistent(WithoutPosition(b, i))
    ensures WithoutPosition(b, i).Total == b.Total - LineTotal(b.Positionen[i])
  {
    RemovePositionTotal(b, i);
    var ps := RemovePosition(b, i).Positionen;
    forall k | 0 <= k < |ps| ensures |ps[k].Besteller| > 0 {
      if k < i {
        assert ps[k] == ps[..i][k] == b.Positionen[k];
      } else {
        assert ps[k] == ps[i..][k - i] == b.Positionen[k + 1];
      }
    }
  }

  /** The position `addtoOrder` builds from the found article: the chosen
      version's price alone is the unit price. */
  function ArticlePosition(a: Artikel, vars: seq<string>, amount: int, sender: User): (c: C.Checked<Position>)
    requires |vars| == 5
    ensures c.Go? ==> c.value.Besteller == [sender] && c.value.Anzahl == amount && c.value.Kommentar == vars[3]
  {
    if a.Versionen == [] then C.Stop(C.Panic)
    else
      var v := ChosenVersion(a, vars[2]);
      C.Go(Position(a.Nummer, a.Name, v.Name, v.Preis, amount, [sender], vars[3]))
  }

  function PositionFor(catalog: seq<LieferDienst>, b: Bestellung, vars: seq<string>, amount: int, sender: User)
    : (c: C.Checked<Position>)
    requires |vars| == 5
    ensures c.Go? ==> c.value.Besteller == [sender] && c.value.Anzahl == amount
  {
    var l := FirstWhere(catalog, NamedService(b.LieferDienst));
    if l == |catalog| then C.Stop(C.Says(C.ServiceNotFound))
    else
      var arts := catalog[l].Artikel;
      var k := FirstWhere(arts, NamedArticle(vars[1]));
      if k == |arts| then C.Stop(C.Says(ArticleNotFound))
      else ArticlePosition(arts[k], vars, amount, sender)
  }

  /** The checks of this revision's `addtoOrder`: at most five arguments
      (order, article, version, comment, quantity), then as in the current
      revision but without extras. */
  function AddChecks(catalog: seq<LieferDienst>, orders: map<string, Bestellung>, sender: User, words: seq<string>, parsed: Result<int>)
    : (c: C.Checked<(string, Position)>)
    ensures c.Go? ==> c.value.0 in orders && c.value.1.Besteller == [sender]
  {
    match Router.Bindings(words, AddSet.NV, AddSet.OV, 5)
    case Err(e) => C.Stop(C.Says(C.WrongArguments(e)))
    case Ok(vars) =>
      match C.Amount(vars[4], parsed)
      case Err(e) => C.Stop(C.Says("Menge konnte nicht konvertiert werden: " + e))
      case Ok(amount) =>
        var key := C.FileName(vars[0]);
        if key !in orders then C.Stop(C.Says(C.LoadFailed))
        else
          match PositionFor(catalog, orders[key], vars, amount, sender)
          case Stop(r) => C.Stop(r)
          case Go(pos) => C.Go((key, pos))
  }

  /** What this revision's `addtoOrder` appends: the found article's
      position at the chosen version's price, with the sender as orderer. */
  lemma AddedPosition(catalog: seq<LieferDienst>, orders: map<string, Bestellung>, sender: User, words: seq<string>, parsed: Result<int>)
    requires AddChecks(catalog, orders, sender, words, parsed).Go?
    ensures Router.Bindings(words, AddSet.NV, AddSet.OV, 5).Ok?
    ensures var vars := Router.Bindings(words, AddSet.NV, AddSet.OV, 5).value;
      var (key, p) := AddChecks(catalog, orders, sender, words, parsed).value;
      var l := FirstWhere(catalog, NamedService(orders[key].LieferDienst));
      key == C.FileName(vars[0]) && l < |catalog| &&
      var arts := catalog[l].Artikel;
      var k := FirstWhere(arts, NamedArticle(vars[1]));
      k < |arts| && arts[k].Versionen != [] &&
      p.Einzelpreis == ChosenVersion(arts[k], vars[2]).Preis &&
      p.Version == ChosenVersion(arts[k], vars[2]).Name &&
      p.ArtikelName == arts[k].Name && p.ArtikelNummer == arts[k].Nummer &&
      p.Kommentar == vars[3] &&
      (vars[4] == "" ==> p.Anzahl == 1) && (vars[4] != "" ==> parsed == Ok(p.Anzahl))
  {
  }

  /** More than five words are bound to the first five; the sixth is
      ignored. */
  lemma AddBindsFive(words: seq<string>)
    requires |words| >= 2
    ensures Router.Bindings(words, AddSet.NV, AddSet.OV, 5).Ok?
    ensures var vars := Router.Bindings(words, AddSet.NV, AddSet.OV, 5).value;
      forall i :: 0 <= i < 5 ==> vars[i] == if i < |words| then ToLower(words[i]) else ""
  {
  }

  /** The checks of this revision's `deletePosition`: the sender must be
      the creator AND the position's first orderer. */
  function DeleteChecks(orders: map<string, Bestellung>, sender: User, words: seq<string>, parsed: Result<int>)
    : (c: C.Checked<(string, int)>)
    ensures c.Go? ==> c.value.0 in orders && 0 <= c.value.1 < |orders[c.value.0].Positionen|
    ensures c.Go? ==> IsCreator(orders[c.value.0], sender.MatrixID)
  {
    match Router.Bindings(words, RemoveSet.NV, RemoveSet.OV, 2)
    case Err(e) => C.Stop(C.Says(C.WrongArguments(e)))
    case Ok(vars) =>
      match parsed
      case Err(e) => C.Stop(C.Says("Position konnte nicht konvertiert werden: " + e))
      case Ok(posi) =>
        var key := C.FileName(vars[0]);
        if key !in orders then C.Stop(C.Says(C.LoadFailed))
        else
          var b := orders[key];
          if posi >= |b.Positionen| || posi < 0 then C.Stop(C.Says("Position nicht vorhanden"))
          else if !IsCreator(b, sender.MatrixID) then C.Stop(C.Says(D.Unauthorized))
          else if b.Positionen[posi].Besteller == [] then C.Stop(C.Panic)
          else if !IsBesteller(b.Positionen[posi], sender.MatrixID) then C.Stop(C.Says(D.Unauthorized))
          else C.Go((key, posi))
  }

  /** In range, and with an orderer on the position, this revision removes
      it exactly when the sender is both the creator and the first orderer;
      out of range it refuses with "Position nicht vorhanden". */
  lemma DeleteAuthorization(orders: map<string, Bestellung>, sender: User, words: seq<string>, parsed: Result<int>, vars: seq<string>)
    requires Router.Bindings(words, RemoveSet.NV, RemoveSet.OV, 2) == Ok(vars)
    requires parsed.Ok? && C.FileName(vars[0]) in orders
    ensures var b, i := orders[C.FileName(vars[0])], parsed.value;
      (i < 0 || i >= |b.Positionen|) ==> DeleteChecks(orders, sender, words, parsed) == C.Stop(C.Says("Position nicht vorhanden"))
    ensures var b, i := orders[C.FileName(vars[0])], parsed.value;
      0 <= i < |b.Positionen| && b.Positionen[i].Besteller != [] ==>
        (DeleteChecks(orders, sender, words, parsed).Go? <==>
         IsCreator(b, sender.MatrixID) && IsBesteller(b.Positionen[i], sender.MatrixID))
  {
  }

  function CloseChecks(orders: map<string, Bestellung>, sender: User, words: seq<string>): (c: C.Checked<string>)
    ensures c.Go? ==> c.value in orders && IsCreator(orders[c.value], sender.MatrixID)
  {
    match Router.Bindings(words, CloseSet.NV, CloseSet.OV, 1)
    case Err(e) => C.Stop(C.Says(C.WrongArguments(e)))
    case Ok(vars) =>
      var key := C.FileName(vars[0]);
      if key !in orders then C.Stop(C.Says(C.LoadFailed))
      else if !IsCreator(orders[key], sender.MatrixID) then C.Stop(C.Says(D.Unauthorized))
      else C.Go(key)
  }

  function PrintPaymentChecks(orders: map<string, Bestellung>, words: seq<string>, parsed: Result<real>): (c: C.Checked<(string, real)>)
    ensures c.Go? ==> c.value.0 in orders
  {
    match Router.Bindings(words, PrintPaymentSet.NV, PrintPaymentSet.OV, 2)
    case Err(e) => C.Stop(C.Says(C.WrongArguments(e)))
    case Ok(vars) =>
      if vars[1] != "" && parsed.Err? then C.Stop(C.Says("Zahlung konnte nicht konvertiert werden: " + parsed.msg))
      else
        var payed := if vars[1] != "" then parsed.value else 0.0;
        var key := C.FileName(vars[0]);
        if key !in orders then C.Stop(C.Says(C.LoadFailed)) else C.Go((key, payed))
  }

  /** The bot's order handler in this revision. A link is the user name
      typed after `add-strichliste`. The links are the contents of
      `strichliste.toml`, which both ledger commands load afresh; the
      outcome of that load is a parameter, `loadErr`. */
  class BestellungHandler {
    const Lieferdienste: seq<LieferDienst>
    var orders: map<string, Bestellung>
    var Link: map<string, string>

    /** Every stored order is consistent. */
    predicate Valid()
      reads this
    {
      forall k :: k in orders ==> Consistent(orders[k])
    }

    constructor (catalog: seq<LieferDienst>, link: map<string, string>)
      ensures Lieferdienste == catalog && orders == map[] && Link == link
      ensures Valid()
    {
      Lieferdienste := catalog;
      orders := map[];
      Link := link;
    }

    /** Writes one order back to the store. */
    method Store(key: string, b: Bestellung)
      modifies this
      ensures orders == old(orders)[key := b] && Link == old(Link)
      ensures old(Valid()) && Consistent(b) ==> Valid()
    {
      orders := orders[key := b];
    }

    method SearchLieferdienst(ld: string) returns (found: bool, res: LieferDienst)
      ensures found <==> FirstWhere(Lieferdienste, NamedService(ld)) < |Lieferdienste|
      ensures found ==> res == Lieferdienste[FirstWhere(Lieferdienste, NamedService(ld))]
    {
      var k;
      found, k := C.Find(Lieferdienste, NamedService(ld));
      res := if found then Lieferdienste[k] else LieferDienst("", "", []);
    }

    method BuildPosition(be: Bestellung, vars: seq<string>, amount: int, sender: User) returns (c: C.Checked<Position>)
      requires |vars| == 5
      ensures c == PositionFor(Lieferdienste, be, vars, amount, sender)
    {
      var ex, ld := SearchLieferdienst(be.LieferDienst);
      if !ex {
        return C.Stop(C.Says(C.ServiceNotFound));
      }
      var found, k := C.Find(ld.Artikel, NamedArticle(vars[1]));
      if !found {
        return C.Stop(C.Says(ArticleNotFound));
      }
      var desiredArtikel := ld.Artikel[k];
      if desiredArtikel.Versionen == [] {
        return C.Stop(C.Panic);
      }
      var desiredVersion := ChooseVersion(desiredArtikel, vars[2]);
      c := C.Go(Position(desiredArtikel.Nummer, desiredArtikel.Name, desiredVersion.Name,
                         desiredVersion.Preis, amount, [sender], vars[3]));
    }

    method CheckAdd(sender: User, words: seq<string>, parsed: Result<int>) returns (c: C.Checked<(string, Position)>)
      ensures c == AddChecks(Lieferdienste, orders, sender, words, parsed)
    {
      var args := C.BindArgs(words, AddSet, 5);
      if args.Err? {
        return C.Stop(C.Says(C.WrongArguments(args.msg)));
      }
      var vars := args.value;
      var amount := 1;
      if vars[4] != "" {
        if parsed.Err? {
          return C.Stop(C.Says("Menge konnte nicht konvertiert werden: " + parsed.msg));
        }
        amount := parsed.value;
      }
      var key := vars[0] + ".toml";
      if key !in orders {
        return C.Stop(C.Says(C.LoadFailed));
      }
      var p := BuildPosition(orders[key], vars, amount, sender);
      if p.Stop? {
        return C.Stop(p.reply);
      }
      c := C.Go((key, p.value));
    }

    /** `addtoOrder` of this revision: appends one position and recomputes
      the total. */
    method AddToOrder(sender: User, words: seq<string>, parsed: Result<int>, writeErr: Option<string>) returns (reply: C.Reply)
      modifies this
      ensures Link == old(Link)
      ensures var c := AddChecks(Lieferdienste, old(orders), sender, words, parsed);
        if c.Stop? then reply == c.reply && orders == old(orders)
        else if writeErr.Some? then reply == C.Says("Fehler beim Speicerhn der bestellung: " + writeErr.value) && orders == old(orders)
        else reply == C.Says("Artikel hinzugefügt") && orders == old(orders)[c.value.0 := WithPosition(old(orders)[c.value.0], c.value.1)]
      ensures old(Valid()) ==> Valid()
    {
      var c := CheckAdd(sender, words, parsed);
      if c.Stop? {
        return c.reply;
      }
      var (key, posi) := c.value;
      var be := orders[key];
      var nb := be.(Positionen := be.Positionen + [posi]);
      nb := CalcTotal(nb);
      if writeErr.Some? {
        return C.Says("Fehler beim Speicerhn der bestellung: " + writeErr.value);
      }
      if Valid() {
        WithPositionConsistent(be, posi);
      }
      Store(key, nb);
      reply := C.Says("Artikel hinzugefügt");
    }

    method CheckDelete(sender: User, words: seq<string>, parsed: Result<int>) returns (c: C.Checked<(string, int)>)
      ensures c == DeleteChecks(orders, sender, words, parsed)
    {
      var args := C.BindArgs(words, RemoveSet, 2);
      if args.Err? {
        return C.Stop(C.Says(C.WrongArguments(args.msg)));
      }
      if parsed.Err? {
        return C.Stop(C.Says("Position konnte nicht konvertiert werden: " + parsed.msg));
      }
      var posi := parsed.value;
      var key := args.value[0] + ".toml";
      if key !in orders {
        return C.Stop(C.Says(C.LoadFailed));
      }
      var be := orders[key];
      if posi >= |be.Positionen| || posi < 0 {
        return C.Stop(C.Says("Position nicht vorhanden"));
      }
      if !IsCreator(be, sender.MatrixID) {
        return C.Stop(C.Says(D.Unauthorized));
      }
      if be.Positionen[posi].Besteller == [] {
        return C.Stop(C.Panic);
      }
      if !IsBesteller(be.Positionen[posi], sender.MatrixID) {
        return C.Stop(C.Says(D.Unauthorized));
      }
      c := C.Go((key, posi));
    }

    /** `deletePosition` of this revision. */
    method DeletePosition(sender: User, words: seq<string>, parsed: Result<int>, writeErr: Option<string>) returns (reply: C.Reply)
      modifies this
      ensures Link == old(Link)
      ensures var c := DeleteChecks(old(orders), sender, words, parsed);
        if c.Stop? then reply == c.reply && orders == old(orders)
        else if writeErr.Some? then reply == C.Says("Fehler beim Speicerhn der bestellung: " + writeErr.value) && orders == old(orders)
        else reply == C.Says("Artikel entfernt") && orders == old(orders)[c.value.0 := WithoutPosition(old(orders)[c.value.0], c.value.1)]
      ensures old(Valid()) ==> Valid()
    {
      var c := CheckDelete(sender, words, parsed);
      if c.Stop? {
        return c.reply;
      }
      var (key, posi) := c.value;
      var be := orders[key];
      var nb := RemovePosition(be, posi);
      nb := CalcTotal(nb);
      if writeErr.Some? {
        return C.Says("Fehler beim Speicerhn der bestellung: " + writeErr.value);
      }
      if Valid() {
        WithoutPositionConsistent(be, posi);
      }
      Store(key, nb);
      reply := C.Says("Artikel entfernt");
    }

    /** `removeOrder` of this revision: only the creator closes an order. */
    method RemoveOrder(sender: User, words: seq<string>, deleteErr: Option<string>) returns (reply: C.Reply)
      modifies this
      ensures Link == old(Link)
      ensures var c := CloseChecks(old(orders), sender, words);
        if c.Stop? then reply == c.reply && orders == old(orders)
        else if deleteErr.Some? then reply == C.Says("Error deleting file: " + deleteErr.value) && orders == old(orders)
        else reply == C.Says("Bestellung geschlossen") && orders == old(orders) - {c.value}
      ensures old(Valid()) ==> Valid()
    {
      var args := C.BindArgs(words, CloseSet, 1);
      if args.Err? {
        return C.Says(C.WrongArguments(args.msg));
      }
      var key := args.value[0] + ".toml";
      if key !in orders {
        return C.Says(C.LoadFailed);
      }
      if !IsCreator(orders[key], sender.MatrixID) {
        return C.Says(D.Unauthorized);
      }
      if deleteErr.Some? {
        return C.Says("Error deleting file: " + deleteErr.value);
      }
      orders := orders - {key};
      reply := C.Says("Bestellung geschlossen");
    }

    /** `printPayment` of this revision: shows the split for the paid
      amount but never writes the order back, so nothing changes. */
    method PrintPayment(words: seq<string>, parsed: Result<real>) returns (reply: C.Reply)
      ensures var c := PrintPaymentChecks(orders, words, parsed);
        if c.Stop? then reply == c.reply
        else reply == PaymentView(WithPayed(orders[c.value.0], c.value.1))
    {
      var args := C.BindArgs(words, PrintPaymentSet, 2);
      if args.Err? {
        return C.Says(C.WrongArguments(args.msg));
      }
      var order, payeds := args.value[0], args.value[1];
      var payed := 0.0;
      if payeds != "" {
        if parsed.Err? {
          return C.Says("Zahlung konnte nicht konvertiert werden: " + parsed.msg);
        }
        payed := parsed.value;
      }
      var key := order + ".toml";
      if key !in orders {
        return C.Says(C.LoadFailed);
      }
      var be := orders[key];
      if payed != 0.0 {
        be := be.(Payed := payed);
      } else {
        be := be.(Payed := be.Total);
      }
      reply := GetPayment(be);
    }

    /** `addStrichliste` of this revision: stores the (lower-cased) user
      name under the sender's Matrix ID, without asking the ledger. */
    method AddStrichliste(sender: User, words: seq<string>, loadErr: Option<string>, writeErr: Option<string>) returns (reply: C.Reply)
      modifies this
      ensures orders == old(orders)
      ensures var r := Router.Bindings(words, AddStrichlisteSet.NV, AddStrichlisteSet.OV, 1);
        if r.Err? then reply == C.Says(C.WrongArguments(r.msg)) && Link == old(Link)
        else if loadErr.Some? then reply == C.LinkLoadFailed(loadErr.value) && Link == old(Link)
        else if writeErr.Some? then reply == C.Says("Fehler beim speichern der Strichlisten Info: " + writeErr.value) && Link == old(Link)
        else reply == C.Says("Link hinzugefügt") && Link == old(Link)[sender.MatrixID := r.value[0]]
    {
      var args := C.BindArgs(words, AddStrichlisteSet, 1);
      if args.Err? {
        return C.Says(C.WrongArguments(args.msg));
      }
      if loadErr.Some? {
        return C.LinkLoadFailed(loadErr.value);
      }
      if writeErr.Some? {
        return C.Says("Fehler beim speichern der Strichlisten Info: " + writeErr.value);
      }
      Link := Link[sender.MatrixID := args.value[0]];
      reply := C.Says("Link hinzugefügt");
    }

    /** `removeStrichliste` of this revision: drops the sender's link once
      the link file has loaded. */
    method RemoveStrichliste(sender: User, loadErr: Option<string>, writeErr: Option<string>) returns (reply: C.Reply)
      modifies this
      ensures orders == old(orders)
      ensures loadErr.Some? ==> reply == C.LinkLoadFailed(loadErr.value) && Link == old(Link)
      ensures loadErr.None? && writeErr.Some? ==> reply == C.Says("Fehler beim speichern der Strichlisten Info: " + writeErr.value) && Link == old(Link)
      ensures loadErr.None? && writeErr.None? ==> reply == C.Says("Link entfernt") && Link == old(Link) - {sender.MatrixID}
    {
      if loadErr.Some? {
        return C.LinkLoadFailed(loadErr.value);
      }
      if writeErr.Some? {
        return C.Says("Fehler beim speichern der Strichlisten Info: " + writeErr.value);
      }
      Link := Link - {sender.MatrixID};
      reply := C.Says("Link entfernt");
    }
  }
}
