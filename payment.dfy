/** The value types and the debt-split specification that both revisions of
    the order handler share: a `User`, a `paymentInfo` row, and the
    accumulation that `calcPayment` performs over an order's positions. */
module Payment {
  import opened Text

  /** A chat participant; `MatrixID` is the identity, `DisplayName` is for display. */
  datatype User = User(DisplayName: string, MatrixID: string)

  /** One row of the debt split: who owes how much. */
  datatype PaymentInfo = PaymentInfo(Payee: User, Amount: real)

  /** What `calcPayment` looks at in one position: its first orderer and
      its line total. */
  datatype Line = Line(Payee: User, Total: real)

  /** The inner search loop of `calcPayment`: the first row whose payee is
      `u`, or `|rows|` when there is none. */
  function FindPayee(rows: seq<PaymentInfo>, u: User): (k: nat)
    ensures k <= |rows|
    ensures forall j :: 0 <= j < k ==> rows[j].Payee != u
    ensures k < |rows| ==> rows[k].Payee == u
  {
    if rows == [] then 0
    else if rows[0].Payee == u then 0
    else 1 + FindPayee(rows[1..], u)
  }

  /** One step of `calcPayment`: add `amount` to the first row of `u`, or
      append a new row for `u` when there is none. */
  function Credit(rows: seq<PaymentInfo>, u: User, amount: real): seq<PaymentInfo>
  {
    var k := FindPayee(rows, u);
    if k < |rows| then rows[k := PaymentInfo(u, rows[k].Amount + amount)]
    else rows + [PaymentInfo(u, amount)]
  }

  /** The rows `calcPayment` builds from the given lines: every line is
      credited, in order, to its payee. */
  function Allocate(lines: seq<Line>): seq<PaymentInfo>
  {
    if lines == [] then []
    else
      var last := lines[|lines| - 1];
      Credit(Allocate(lines[..|lines| - 1]), last.Payee, last.Total)
  }

  /** The lines with every total mapped through `f`; `calcPayment` uses
      `Times(off)`, that is `p.getTotal() * off`. */
  function Scale(lines: seq<Line>, f: real -> real): (r: seq<Line>)
    ensures |r| == |lines|
    ensures forall i :: 0 <= i < |lines| ==> r[i] == Line(lines[i].Payee, f(lines[i].Total))
  {
    if lines == [] then []
    else Scale(lines[..|lines| - 1], f) + [Line(lines[|lines| - 1].Payee, f(lines[|lines| - 1].Total))]
  }

  /** Multiplication by `off`. */
  function Times(off: real): real -> real
  {
    x => x * off
  }

  /** `a + b`, as a function so that additivity can be stated with a
      trigger. */
  function Plus(a: real, b: real): real
  {
    a + b
  }

  /** A map that preserves zero and sums, as multiplication by a constant
      does. */
  ghost predicate Additive(f: real -> real)
  {
    f(0.0) == 0.0 && forall a, b :: f(Plus(a, b)) == f(a) + f(b)
  }

  lemma TimesAdditive(off: real)
    ensures Additive(Times(off))
  {
    forall a, b ensures Times(off)(Plus(a, b)) == Times(off)(a) + Times(off)(b) {
      Distribute(off, a, b, a + b);
    }
  }

  function Payees(rows: seq<PaymentInfo>): (us: seq<User>)
    ensures |us| == |rows|
    ensures forall i :: 0 <= i < |rows| ==> us[i] == rows[i].Payee
  {
    if rows == [] then [] else Payees(rows[..|rows| - 1]) + [rows[|rows| - 1].Payee]
  }

  /** The payee of each line, in order. */
  function LinePayees(lines: seq<Line>): seq<User>
  {
    seq(|lines|, i requires 0 <= i < |lines| => lines[i].Payee)
  }

  /** The users of `us`, each once, in the order of their first appearance. */
  function FirstAppearances(us: seq<User>): seq<User>
  {
    if us == [] then []
    else
      var init := FirstAppearances(us[..|us| - 1]);
      if us[|us| - 1] in us[..|us| - 1] then init else init + [us[|us| - 1]]
  }

  /** The sum of the line totals of the lines that `u` ordered first. */
  function UserTotal(lines: seq<Line>, u: User): real
  {
    if lines == [] then 0.0
    else
      var last := lines[|lines| - 1];
      UserTotal(lines[..|lines| - 1], u) + (if last.Payee == u then last.Total else 0.0)
  }

  function SumLines(lines: seq<Line>): real
  {
    if lines == [] then 0.0 else SumLines(lines[..|lines| - 1]) + lines[|lines| - 1].Total
  }

  function SumAmounts(rows: seq<PaymentInfo>): real
  {
    if rows == [] then 0.0 else SumAmounts(rows[..|rows| - 1]) + rows[|rows| - 1].Amount
  }

  /** `FirstAppearances` keeps exactly the users that occur. */
  lemma {:induction false} FirstAppearancesMembers(us: seq<User>, x: User)
    ensures x in FirstAppearances(us) <==> x in us
  {
    if us != [] {
      var init := us[..|us| - 1];
      FirstAppearancesMembers(init, x);
      assert us == init + [us[|us| - 1]];
    }
  }

  /** `FirstAppearances` lists no user twice. */
  lemma {:induction false} FirstAppearancesDistinct(us: seq<User>)
    ensures Distinct(FirstAppearances(us))
  {
    if us != [] {
      var init := us[..|us| - 1];
      FirstAppearancesDistinct(init);
      FirstAppearancesMembers(init, us[|us| - 1]);
    }
  }

  lemma PayeesUpdate(rows: seq<PaymentInfo>, k: nat, row: PaymentInfo)
    requires k < |rows| && row.Payee == rows[k].Payee
    ensures Payees(rows[k := row]) == Payees(rows)
  {
  }

  lemma PayeesAppend(rows: seq<PaymentInfo>, row: PaymentInfo)
    ensures Payees(rows + [row]) == Payees(rows) + [row.Payee]
  {
  }

  /** Crediting keeps the payees, or adds `u` at the end when it has no
      row yet. */
  lemma CreditPayees(rows: seq<PaymentInfo>, u: User, amount: real)
    ensures u in Payees(rows) ==> Payees(Credit(rows, u, amount)) == Payees(rows)
    ensures u !in Payees(rows) ==> Payees(Credit(rows, u, amount)) == Payees(rows) + [u]
  {
    var k := FindPayee(rows, u);
    if k < |rows| {
      PayeesUpdate(rows, k, PaymentInfo(u, rows[k].Amount + amount));
    } else {
      assert u !in Payees(rows);
      PayeesAppend(rows, PaymentInfo(u, amount));
    }
  }

  /** The rows name each payee once, in order of first appearance. */
  lemma {:induction false} AllocatePayees(lines: seq<Line>)
    ensures Payees(Allocate(lines)) == FirstAppearances(LinePayees(lines))
  {
    if lines != [] {
      var init, last := lines[..|lines| - 1], lines[|lines| - 1];
      AllocatePayees(init);
      var us := LinePayees(lines);
      assert us[..|us| - 1] == LinePayees(init);
      FirstAppearancesMembers(LinePayees(init), last.Payee);
      CreditPayees(Allocate(init), last.Payee, last.Total);
    }
  }

  /** No two rows have the same payee. */
  lemma AllocateDistinct(lines: seq<Line>)
    ensures Distinct(Payees(Allocate(lines)))
  {
    AllocatePayees(lines);
    FirstAppearancesDistinct(LinePayees(lines));
  }

  /** A user who ordered no line owes nothing. */
  lemma {:induction false} UserTotalAbsent(lines: seq<Line>, u: User)
    requires u !in LinePayees(lines)
    ensures UserTotal(lines, u) == 0.0
  {
    if lines != [] {
      var init := lines[..|lines| - 1];
      assert LinePayees(lines) == LinePayees(init) + [lines[|lines| - 1].Payee];
      UserTotalAbsent(init, u);
    }
  }

  /** Every row's amount is the sum of that payee's line totals. */
  ghost predicate AmountsMatch(rows: seq<PaymentInfo>, lines: seq<Line>)
  {
    forall k :: 0 <= k < |rows| ==> rows[k].Amount == UserTotal(lines, rows[k].Payee)
  }

  /** Each row's amount is the sum of the totals of that payee's lines. */
  lemma {:induction false} AllocateAmounts(lines: seq<Line>)
    ensures AmountsMatch(Allocate(lines), lines)
  {
    if lines != [] {
      var init, last := lines[..|lines| - 1], lines[|lines| - 1];
      AllocateAmounts(init);
      AllocatePayees(init);
      AllocateDistinct(init);
      var rows := Allocate(init);
      var u := last.Payee;
      var k := FindPayee(rows, u);
      var r := Allocate(lines);
      if k == |rows| {
        assert u !in Payees(rows);
        FirstAppearancesMembers(LinePayees(init), u);
        UserTotalAbsent(init, u);
      }
      forall j | 0 <= j < |r|
        ensures r[j].Amount == UserTotal(lines, r[j].Payee)
      {
        if j < |rows| && j != k {
          assert Payees(rows)[j] == rows[j].Payee;
          assert r[j] == rows[j] && rows[j].Payee != u;
        } else {
          assert r[j].Payee == u;
        }
      }
    }
  }

  lemma {:induction false} SumAmountsUpdate(rows: seq<PaymentInfo>, k: nat, row: PaymentInfo)
    requires k < |rows|
    ensures SumAmounts(rows[k := row]) == SumAmounts(rows) - rows[k].Amount + row.Amount
  {
    var n := |rows|;
    if k < n - 1 {
      assert rows[k := row][..n - 1] == rows[..n - 1][k := row];
      SumAmountsUpdate(rows[..n - 1], k, row);
    } else {
      assert rows[k := row][..n - 1] == rows[..n - 1];
    }
  }

  /** Crediting `amount` raises the sum of the amounts by `amount`. */
  lemma CreditSum(rows: seq<PaymentInfo>, u: User, amount: real)
    ensures SumAmounts(Credit(rows, u, amount)) == SumAmounts(rows) + amount
  {
    var k := FindPayee(rows, u);
    if k < |rows| {
      SumAmountsUpdate(rows, k, PaymentInfo(u, rows[k].Amount + amount));
    } else {
      assert (rows + [PaymentInfo(u, amount)])[..|rows|] == rows;
    }
  }

  /** The amounts add up to the sum of all line totals. */
  lemma {:induction false} AllocateSum(lines: seq<Line>)
    ensures SumAmounts(Allocate(lines)) == SumLines(lines)
  {
    if lines != [] {
      var init, last := lines[..|lines| - 1], lines[|lines| - 1];
      AllocateSum(init);
      CreditSum(Allocate(init), last.Payee, last.Total);
    }
  }

  lemma Distribute(a: real, b: real, c: real, s: real)
    requires s == b + c
    ensures s * a == b * a + c * a
  {
  }

  /** The lines that `u` ordered first, in order. */
  function LinesOf(lines: seq<Line>, u: User): (r: seq<Line>)
    ensures forall i :: 0 <= i < |r| ==> r[i].Payee == u
  {
    if lines == [] then []
    else
      var init := LinesOf(lines[..|lines| - 1], u);
      if lines[|lines| - 1].Payee == u then init + [lines[|lines| - 1]] else init
  }

  /** A payee's total is the sum over that payee's lines. */
  lemma {:induction false} UserTotalLinesOf(lines: seq<Line>, u: User)
    ensures UserTotal(lines, u) == SumLines(LinesOf(lines, u))
  {
    if lines != [] {
      var init := lines[..|lines| - 1];
      UserTotalLinesOf(init, u);
      var r := LinesOf(init, u);
      assert (r + [lines[|lines| - 1]])[..|r|] == r;
    }
  }

  /** Picking a payee's lines commutes with scaling. */
  lemma {:induction false} LinesOfScale(lines: seq<Line>, f: real -> real, u: User)
    ensures LinesOf(Scale(lines, f), u) == Scale(LinesOf(lines, u), f)
  {
    if lines != [] {
      var n := |lines|;
      var init, l := lines[..n - 1], lines[n - 1];
      LinesOfScale(init, f, u);
      var s := Scale(lines, f);
      assert s[..n - 1] == Scale(init, f);
      var r := LinesOf(init, u);
      if l.Payee == u {
        var r' := r + [l];
        assert r'[..|r'| - 1] == r && r'[|r'| - 1] == l;
        assert Scale(r', f)[..|r|] == Scale(r, f);
      }
    }
  }

  /** Scaling every line by an additive `f` maps the grand total through
      `f`. */
  lemma {:induction false} ScaleSum(lines: seq<Line>, f: real -> real)
    requires Additive(f)
    ensures SumLines(Scale(lines, f)) == f(SumLines(lines))
  {
    if lines != [] {
      var n := |lines|;
      var init, l := lines[..n - 1], lines[n - 1];
      var s := Scale(lines, f);
      assert s[..n - 1] == Scale(init, f);
      ScaleSum(init, f);
      assert f(Plus(SumLines(init), l.Total)) == f(SumLines(init)) + f(l.Total);
    }
  }

  /** Scaling every line by an additive `f` maps each payee's total through
      `f`. */
  lemma ScaleUserTotal(lines: seq<Line>, f: real -> real, u: User)
    requires Additive(f)
    ensures UserTotal(Scale(lines, f), u) == f(UserTotal(lines, u))
  {
    var mine := LinesOf(lines, u);
    UserTotalLinesOf(lines, u);
    UserTotalLinesOf(Scale(lines, f), u);
    LinesOfScale(lines, f, u);
    ScaleSum(mine, f);
  }

  /** Scaling keeps the payees. */
  lemma ScalePayees(lines: seq<Line>, f: real -> real)
    ensures LinePayees(Scale(lines, f)) == LinePayees(lines)
  {
  }
}
