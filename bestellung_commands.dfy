/** The command handlers of the current order-handler revision: the catalog
    lookups (service, article, version, extras), the ledger ("Strichliste")
    user search, the settlement of an order on the ledger, and the handler
    object whose state is the order store, the link map from Matrix IDs to
    ledger users, and the catalog. Matrix replies, the file store, HTTP
    calls, random words, the clock and the number parsers are not run:
    their results are parameters. */
module BestellungCommands {
  import opened Wrappers
  import opened Text
  import opened Payment
  import opened BestellungDefinition
  import Router

  const Command := "bestellung"

  // ---------------------------------------------------------------------
  // Registration (`Prime`)

  const NewSet := Router.SubHandlerSet("Erstellt eine Neue Bestellung.", "new $Lieferdienst", 1, 0)
  const AddSet := Router.SubHandlerSet("Hinzufügen eines Items zur Bestellung", "add $Bestellung $Artikel [$Version $Extras $Kommentar $Anzahl]", 2, 4)
  const PrintPaymentSet := Router.SubHandlerSet("Ausgabe der Informationen wer was bezahlen muss", "print-payment $Bestellung [$Gezahlt]", 1, 1)
  const RemoveSet := Router.SubHandlerSet("Löscht Position aus der Bestellung", "remove $Bestellung $Position", 2, 0)
  const CloseSet := Router.SubHandlerSet("Schließt Bestellung und Löscht diese", "close $Bestellung", 1, 0)
  const AddStrichlisteSet := Router.SubHandlerSet("Verknüpft den schreibenden Matrix account mit einem Strichlisten Benutzer", "add-strichliste $Benutzername", 1, 0)
  const RemoveStrichlisteSet := Router.SubHandlerSet("Löscht Matrix account zu Strichlisten account verknüpfung", "remove-strichliste", 0, 0)
  const ProcessStrichlisteSet := Router.SubHandlerSet("Versucht Bestellung via Strichliste abzurechenen", "process-strichliste $Bestellung [$Bezahlendendes-Wesen]", 1, 1)

  /** The reply every handler sends when binding its arguments fails. */
  function WrongArguments(e: string): string
  {
    Router.WrongArguments(Router.DefaultCommandPrefix + Command) + " " + e
  }

  /** `SplitAnswer` into `n` fresh, empty variables, as each handler calls it. */
  method BindArgs(words: seq<string>, s: Router.SubHandlerSet, n: nat) returns (r: Result<seq<string>>)
    ensures r == Router.Bindings(words, s.NV, s.OV, n)
  {
    var vars := new string[n](_ => "");
    assert vars[..] == seq(n, _ => "");
    var err := Router.SplitAnswer(words, s.NV, s.OV, vars);
    if err.Some? {
      r := Err(err.value);
    } else {
      r := Ok(vars[..]);
    }
  }

  // ---------------------------------------------------------------------
  // Catalog lookups

  /** The `for ... range` search with a `found` flag and `break`: `found`
      tells whether some element matches, `k` is the first that does. */
  method Find<T>(s: seq<T>, p: T -> bool) returns (found: bool, k: nat)
    ensures k == FirstWhere(s, p)
    ensures found <==> k < |s|
  {
    found := false;
    k := 0;
    while k < |s|
      invariant 0 <= k <= |s|
      invariant forall j :: 0 <= j < k ==> !p(s[j])
    {
      if p(s[k]) {
        found := true;
        break;
      }
      k := k + 1;
    }
  }

  /** `searchLieferdienst` compares the token with the lower-cased name. */
  function NamedService(ld: string): LieferDienst -> bool
  {
    (l: LieferDienst) => ld == ToLower(l.Name)
  }

  /** The article search of `addtoOrder`: lower-cased name or number. */
  function NamedArticle(artikel: string): Artikel -> bool
  {
    (a: Artikel) => artikel == ToLower(a.Name) || artikel == ToLower(a.Nummer)
  }

  /** The version search of `addtoOrder`: lower-cased version name. */
  function NamedVersion(version: string): Zusatz -> bool
  {
    (v: Zusatz) => version == ToLower(v.Name)
  }

  /** `parseExtras` lower-cases the field and compares it with the extra's
      name as stored. */
  function NamedExtra(field: string): Zusatz -> bool
  {
    (e: Zusatz) => ToLower(field) == e.Name
  }

  const NoService := LieferDienst("", "", "", [])
  const NoArtikel := Artikel("", "", "", [], [])

  /** The version `addtoOrder` picks: `Versionen[0]` by default; with more
      than one version the first whose lower-cased name is the token. An
      unmatched token keeps `Versionen[0]` (the code never re-checks the
      flag), and so does any token when there is only one version. */
  function ChosenVersion(a: Artikel, version: string): (v: Zusatz)
    requires |a.Versionen| > 0
    ensures v in a.Versionen
    ensures |a.Versionen| == 1 ==> v == a.Versionen[0]
    ensures FirstWhere(a.Versionen, NamedVersion(version)) == |a.Versionen| ==> v == a.Versionen[0]
    ensures |a.Versionen| > 1 && FirstWhere(a.Versionen, NamedVersion(version)) < |a.Versionen| ==>
      NamedVersion(version)(v) && v == a.Versionen[FirstWhere(a.Versionen, NamedVersion(version))]
  {
    var k := FirstWhere(a.Versionen, NamedVersion(version));
    if |a.Versionen| > 1 && k < |a.Versionen| then a.Versionen[k] else a.Versionen[0]
  }

  /** The version step of `addtoOrder`. */
  method ChooseVersion(a: Artikel, version: string) returns (v: Zusatz)
    requires |a.Versionen| > 0
    ensures v == ChosenVersion(a, version)
  {
    v := a.Versionen[0];
    if |a.Versionen| > 1 {
      var ex, k := Find(a.Versionen, NamedVersion(version));
      if ex {
        v := a.Versionen[k];
      }
    }
  }

  // ---------------------------------------------------------------------
  // Extras

  /** A comma field that names no extra of the article. */
  function Unmatched(es: seq<Zusatz>): string -> bool
  {
    (field: string) => FirstWhere(es, NamedExtra(field)) == |es|
  }

  function ExtraError(field: string): string
  {
    "Konnte Zusatz " + field + " nicht zuordnen"
  }

  /** The matching loop of `parseExtras`: each field, in order, becomes the
      first extra whose name is the lower-cased field; the first field that
      names none makes the whole call fail. */
  function MatchExtras(fields: seq<string>, es: seq<Zusatz>): Result<seq<Zusatz>>
  {
    if fields == [] then Ok([])
    else
      var k := FirstWhere(es, NamedExtra(fields[0]));
      if k == |es| then Err(ExtraError(fields[0]))
      else
        match MatchExtras(fields[1..], es)
        case Err(m) => Err(m)
        case Ok(zs) => Ok([es[k]] + zs)
  }

  /** A successful match has one extra per field, in field order, each the
      first extra named by its field. */
  lemma {:induction false} MatchExtrasOk(fields: seq<string>, es: seq<Zusatz>)
    requires MatchExtras(fields, es).Ok?
    ensures |MatchExtras(fields, es).value| == |fields|
    ensures forall k :: 0 <= k < |fields| ==>
      FirstWhere(es, NamedExtra(fields[k])) < |es| &&
      MatchExtras(fields, es).value[k] == es[FirstWhere(es, NamedExtra(fields[k]))]
  {
    if fields != [] {
      MatchExtrasOk(fields[1..], es);
      forall k | 1 <= k < |fields| ensures fields[1..][k - 1] == fields[k] { }
    }
  }

  /** The match fails exactly when some field names no extra, and the error
      names the first such field. */
  lemma {:induction false} MatchExtrasErr(fields: seq<string>, es: seq<Zusatz>)
    ensures MatchExtras(fields, es).Err? <==> FirstWhere(fields, Unmatched(es)) < |fields|
    ensures MatchExtras(fields, es).Err? ==>
      MatchExtras(fields, es).msg == ExtraError(fields[FirstWhere(fields, Unmatched(es))])
  {
    if fields != [] {
      var u := Unmatched(es);
      if FirstWhere(es, NamedExtra(fields[0])) == |es| {
        assert u(fields[0]);
        assert FirstWhere(fields, u) == 0;
      } else {
        assert !u(fields[0]);
        var rest := fields[1..];
        MatchExtrasErr(rest, es);
        var j := FirstWhere(rest, u);
        assert FirstWhere(fields, u) == 1 + j;
        assert MatchExtras(fields, es).Err? <==> MatchExtras(rest, es).Err?;
        if j < |rest| {
          assert fields[1 + j] == rest[j];
        }
      }
    }
  }

  /** `parseExtras`: no extras for the empty string, otherwise the matching
      of the comma-separated fields. */
  function ExtrasOf(extras: string, es: seq<Zusatz>): Result<seq<Zusatz>>
  {
    if extras == "" then Ok([]) else MatchExtras(Text.Split(extras, ','), es)
  }

  /** A matched prefix in front of the outcome of the remaining fields. */
  function Prepend(zs: seq<Zusatz>, r: Result<seq<Zusatz>>): Result<seq<Zusatz>>
  {
    match r
    case Ok(v) => Ok(zs + v)
    case Err(m) => Err(m)
  }

  /** `parseExtras(extras, artikel)`. */
  method ParseExtras(extras: string, artikel: Artikel) returns (r: Result<seq<Zusatz>>)
    ensures r == ExtrasOf(extras, artikel.Extras)
  {
    if extras == "" {
      return Ok([]);
    }
    var read := Text.Split(extras, ',');
    var es := artikel.Extras;
    var result: seq<Zusatz> := [];
    var i := 0;
    assert read[0..] == read;
    if MatchExtras(read, es).Ok? {
      assert [] + MatchExtras(read, es).value == MatchExtras(read, es).value;
    }
    while i < |read|
      invariant 0 <= i <= |read|
      invariant MatchExtras(read, es) == Prepend(result, MatchExtras(read[i..], es))
    {
      assert read[i..][0] == read[i] && read[i..][1..] == read[i + 1..];
      var cont, k := Find(es, NamedExtra(read[i]));
      if !cont {
        assert MatchExtras(read[i..], es) == Err(ExtraError(read[i]));
        return Err(ExtraError(read[i]));
      }
      ghost var rest := MatchExtras(read[i + 1..], es);
      if rest.Ok? {
        assert result + ([es[k]] + rest.value) == (result + [es[k]]) + rest.value;
      }
      result := result + [es[k]];
      i := i + 1;
    }
    assert read[i..] == [] && result + [] == result;
    r := Ok(result);
  }

  /** The sum of the extras' prices. */
  function ExtrasTotal(zs: seq<Zusatz>): real
  {
    if zs == [] then 0.0 else ExtrasTotal(zs[..|zs| - 1]) + zs[|zs| - 1].Preis
  }

  /** `getExtrasTotal`. */
  method GetExtrasTotal(zs: seq<Zusatz>) returns (result: real)
    ensures result == ExtrasTotal(zs)
  {
    result := 0.0;
    var i := 0;
    while i < |zs|
      invariant 0 <= i <= |zs|
      invariant result == ExtrasTotal(zs[..i])
    {
      assert zs[..i + 1][..i] == zs[..i];
      result := result + zs[i].Preis;
      i := i + 1;
    }
    assert zs[..i] == zs;
  }

  /** Extras with non-negative prices never lower the unit price. */
  lemma {:induction false} ExtrasTotalNonNegative(zs: seq<Zusatz>)
    requires forall k :: 0 <= k < |zs| ==> zs[k].Preis >= 0.0
    ensures ExtrasTotal(zs) >= 0.0
  {
    if zs != [] {
      ExtrasTotalNonNegative(zs[..|zs| - 1]);
    }
  }

  // ---------------------------------------------------------------------
  // The ledger ("Strichliste")

  datatype SiUser = SiUser(ID: int, Name: string, IsDisabled: bool)

  /** The user search answer; `Count` is a field of the answer and need not
      be the length of the list. */
  datatype SiUserResponse = SiUserResponse(Count: int, SiUsers: seq<SiUser>)

  datatype SiTransaction = SiTransaction(Amount: int, RecipientID: int, Comment: string)

  /** A transaction request: the URL it is posted to and its body. */
  datatype Posting = Posting(URL: string, Transaction: SiTransaction)

  /** The ledger's HTTP interface as seen by the handler: each request URL
      (and body) with the decoded answer or the request's error text. */
  datatype Ledger = Ledger(
    Search: string -> Result<SiUserResponse>,
    GetUser: string -> Result<SiUser>,
    Post: (string, SiTransaction) -> Result<int>)

  /** The outcome of a step that can fail with a message or panic with an
      index out of range. */
  datatype Attempt<T> = Done(value: T) | Failed(msg: string) | Panicked

  /** The exact-name search of `getStrichlistenID`, ignoring case on both sides. */
  function SameUserName(name: string): SiUser -> bool
  {
    (u: SiUser) => ToLower(name) == ToLower(u.Name)
  }

  function Usable(u: SiUser): Attempt<int>
  {
    if u.IsDisabled then Failed("benutzer disabled") else Done(u.ID)
  }

  /** `getStrichlistenID` on the search answer: a count of 0 is an error, a
      count of 1 takes the first user whatever its name, any other count
      takes the first user whose name equals `name` ignoring case; a
      disabled user is an error. */
  function StrichlistenID(resp: Result<SiUserResponse>, name: string): (r: Attempt<int>)
    ensures resp.Err? ==> r == Failed(resp.msg)
    ensures resp.Ok? && resp.value.Count == 0 ==> r == Failed("keinen Strichlisten Benutzer gefunden")
    ensures r.Panicked? <==> resp.Ok? && resp.value.Count == 1 && resp.value.SiUsers == []
    ensures r.Done? ==> resp.Ok? && exists u :: u in resp.value.SiUsers && u.ID == r.value && !u.IsDisabled
    ensures resp.Ok? && resp.value.Count == 1 && resp.value.SiUsers != [] && !resp.value.SiUsers[0].IsDisabled ==>
      r == Done(resp.value.SiUsers[0].ID)
    ensures resp.Ok? && resp.value.Count != 0 && resp.value.Count != 1 ==>
      (r == Failed("keine exakte übereinstimmung gefunden. Bitte Name prüfen") <==>
       FirstWhere(resp.value.SiUsers, SameUserName(name)) == |resp.value.SiUsers|)
  {
    match resp
    case Err(e) => Failed(e)
    case Ok(ur) =>
      if ur.Count == 0 then Failed("keinen Strichlisten Benutzer gefunden")
      else if ur.Count == 1 then
        if ur.SiUsers == [] then Panicked else Usable(ur.SiUsers[0])
      else
        var k := FirstWhere(ur.SiUsers, SameUserName(name));
        if k == |ur.SiUsers| then Failed("keine exakte übereinstimmung gefunden. Bitte Name prüfen")
        else Usable(ur.SiUsers[k])
  }

  function SearchURL(address: string, name: string): string
  {
    address + "/api/user/search?query=" + name
  }

  /** `getStrichlistenID(address, name)`, with the search request answered
      by `search`. */
  method GetStrichlistenID(address: string, name: string, search: string -> Result<SiUserResponse>) returns (r: Attempt<int>)
    ensures r == StrichlistenID(search(SearchURL(address, name)), name)
  {
    var userResponse := search(SearchURL(address, name));
    if userResponse.Err? {
      return Failed(userResponse.msg);
    }
    var ur := userResponse.value;
    var siUser;
    if ur.Count == 0 {
      return Failed("keinen Strichlisten Benutzer gefunden");
    } else if ur.Count == 1 {
      if ur.SiUsers == [] {
        return Panicked;
      }
      siUser := ur.SiUsers[0];
    } else {
      var found, k := Find(ur.SiUsers, SameUserName(name));
      if !found {
        return Failed("keine exakte übereinstimmung gefunden. Bitte Name prüfen");
      }
      siUser := ur.SiUsers[k];
    }
    if siUser.IsDisabled {
      return Failed("benutzer disabled");
    }
    r := Done(siUser.ID);
  }

  /** What one `doPayment` records for its payee, and the transaction it
      posts, if it gets that far. */
  datatype Settled = Settled(Result: string, Requested: Option<Posting>)

  function UserURL(address: string, id: int): string
  {
    address + "/api/user/" + IntToString(id)
  }

  /** `doPayment(payer, p, comment, si)`: an unlinked payee, a payee who is
      the payer, a failed user request and a disabled user end without a
      transaction; otherwise the payee is charged `ceil(Amount * 100)` cents
      in favour of the payer. */
  function DoPayment(payer: int, p: PaymentInfo, comment: string, link: map<string, int>, address: string, ledger: Ledger): (s: Settled)
    ensures p.Payee.MatrixID !in link ==> s == Settled("Keinen Strichlisten Benutzer gefunden", None)
    ensures p.Payee.MatrixID in link && link[p.Payee.MatrixID] == payer ==> s == Settled("Benutzer hat bei Lieferdienst bezahlt", None)
    ensures p.Payee.MatrixID in link && link[p.Payee.MatrixID] != payer ==>
      var u := ledger.GetUser(UserURL(address, link[p.Payee.MatrixID]));
      (u.Err? ==> s == Settled("Fehler beim User Request:" + u.msg, None)) &&
      (u.Ok? && u.value.IsDisabled ==> s == Settled("Benutzer disabled", None)) &&
      (u.Ok? && !u.value.IsDisabled ==> s.Requested.Some?)
    ensures s.Requested.Some? ==>
      p.Payee.MatrixID in link && link[p.Payee.MatrixID] != payer &&
      s.Requested.value == Posting(UserURL(address, link[p.Payee.MatrixID]) + "/transaction",
                                   SiTransaction(Ceil(p.Amount * 100.0), payer, comment))
  {
    if p.Payee.MatrixID !in link then Settled("Keinen Strichlisten Benutzer gefunden", None)
    else
      var siID := link[p.Payee.MatrixID];
      if payer == siID then Settled("Benutzer hat bei Lieferdienst bezahlt", None)
      else
        match ledger.GetUser(UserURL(address, siID))
        case Err(e) => Settled("Fehler beim User Request:" + e, None)
        case Ok(u) =>
          if u.IsDisabled then Settled("Benutzer disabled", None)
          else
            var t := SiTransaction(Ceil(p.Amount * 100.0), payer, comment);
            var url := UserURL(address, siID) + "/transaction";
            match ledger.Post(url, t)
            case Err(e) => Settled("Fehler beim Transaction Request:" + e, Some(Posting(url, t)))
            case Ok(id) => Settled("Transaction mit der ID " + IntToString(id) + " angelegt", Some(Posting(url, t)))
  }

  /** The result map `ses.es` after every row's `doPayment` has written its
      entry, the rows taken in order. */
  function Results(payer: int, pi: seq<PaymentInfo>, comment: string, link: map<string, int>, address: string, ledger: Ledger): map<User, string>
  {
    if pi == [] then map[]
    else
      var p := pi[|pi| - 1];
      Results(payer, pi[..|pi| - 1], comment, link, address, ledger)[p.Payee := DoPayment(payer, p, comment, link, address, ledger).Result]
  }

  /** The transactions the rows post, in row order. */
  function Requests(payer: int, pi: seq<PaymentInfo>, comment: string, link: map<string, int>, address: string, ledger: Ledger): seq<Posting>
  {
    if pi == [] then []
    else
      var p := pi[|pi| - 1];
      var s := DoPayment(payer, p, comment, link, address, ledger);
      Requests(payer, pi[..|pi| - 1], comment, link, address, ledger) + (if s.Requested.Some? then [s.Requested.value] else [])
  }

  /** The fan-out of `processStrichliste`, one `doPayment` per row, run one
      after the other. */
  method DoPayments(payer: int, pi: seq<PaymentInfo>, comment: string, link: map<string, int>, address: string, ledger: Ledger)
    returns (es: map<User, string>, posted: seq<Posting>)
    ensures es == Results(payer, pi, comment, link, address, ledger)
    ensures posted == Requests(payer, pi, comment, link, address, ledger)
  {
    es := map[];
    posted := [];
    var i := 0;
    while i < |pi|
      invariant 0 <= i <= |pi|
      invariant es == Results(payer, pi[..i], comment, link, address, ledger)
      invariant posted == Requests(payer, pi[..i], comment, link, address, ledger)
    {
      assert pi[..i + 1][..i] == pi[..i] && pi[..i + 1][i] == pi[i];
      var s := DoPayment(payer, pi[i], comment, link, address, ledger);
      ghost var next := pi[..i + 1];
      assert Results(payer, next, comment, link, address, ledger)
          == Results(payer, pi[..i], comment, link, address, ledger)[pi[i].Payee := s.Result];
      assert Requests(payer, next, comment, link, address, ledger)
          == Requests(payer, pi[..i], comment, link, address, ledger) + (if s.Requested.Some? then [s.Requested.value] else []);
      es := es[pi[i].Payee := s.Result];
      if s.Requested.Some? {
        posted := posted + [s.Requested.value];
      }
      i := i + 1;
    }
    assert pi[..i] == pi;
  }

  /** With distinct payees (as `calcPayment` produces them) the result map
      has exactly one entry per row, holding that row's outcome, so the
      order in which the concurrent payments finish does not matter. */
  lemma {:induction false} ResultsPerPayee(payer: int, pi: seq<PaymentInfo>, comment: string, link: map<string, int>, address: string, ledger: Ledger)
    requires Distinct(Payees(pi))
    ensures forall u :: u in Results(payer, pi, comment, link, address, ledger) <==> u in Payees(pi)
    ensures forall k :: 0 <= k < |pi| ==>
      Results(payer, pi, comment, link, address, ledger)[pi[k].Payee] == DoPayment(payer, pi[k], comment, link, address, ledger).Result
  {
    if pi != [] {
      var init := pi[..|pi| - 1];
      assert Payees(init) == Payees(pi)[..|pi| - 1];
      ResultsPerPayee(payer, init, comment, link, address, ledger);
      forall k | 0 <= k < |init| ensures pi[k].Payee != pi[|pi| - 1].Payee {
        assert Payees(pi)[k] == pi[k].Payee;
      }
    }
  }

  /** Every posted transaction credits the payer, carries the order's
      comment, and is debited from a linked payee other than the payer. */
  lemma {:induction false} RequestsCreditPayer(payer: int, pi: seq<PaymentInfo>, comment: string, link: map<string, int>, address: string, ledger: Ledger)
    ensures |Requests(payer, pi, comment, link, address, ledger)| <= |pi|
    ensures forall q :: q in Requests(payer, pi, comment, link, address, ledger) ==>
      q.Transaction.RecipientID == payer && q.Transaction.Comment == comment &&
      exists k :: 0 <= k < |pi| && pi[k].Payee.MatrixID in link && link[pi[k].Payee.MatrixID] != payer &&
        q == Posting(UserURL(address, link[pi[k].Payee.MatrixID]) + "/transaction",
                     SiTransaction(Ceil(pi[k].Amount * 100.0), payer, comment))
  {
    if pi != [] {
      var init := pi[..|pi| - 1];
      RequestsCreditPayer(payer, init, comment, link, address, ledger);
      forall k | 0 <= k < |init| ensures init[k] == pi[k] { }
    }
  }

  // ---------------------------------------------------------------------
  // Handlers

  /** What a handler sends back: a plain message, the `getPayment` table,
      the settlement table (payee to result, in the map's own order), a
      run-time panic of the Go code, or a division by a zero total, whose
      IEEE infinities and NaNs are not modelled. */
  datatype Reply =
    | Says(text: string)
    | PaymentTable(Rabatt: real, Rows: seq<DebtRow>)
    | Settlement(Title: string, Results: map<User, string>)
    | Panic
    | NonFinite

  /** The outcome of a handler's checks: go on with `value`, or stop with
      `reply`. */
  datatype Checked<T> = Go(value: T) | Stop(reply: Reply)

  const ServiceNotFound := "Lieferdienst nicht gefunden, benutze !bestellung dienste für eine Liste"
  const ArticleNotFound := "Artikel nicht gefunden, benutze !bestellung article $Lieferdienst für eine Liste"
  const LoadFailed := "Fehler beim Laden der Bestellung: " + "Bestellung nicht vorhanden"

  /** The store key of an order name. */
  function FileName(order: string): string
  {
    order + ".toml"
  }

  /** An order whose stored total is the sum of its line totals and whose
      positions all name an orderer, as every handler writes it. */
  predicate Consistent(b: Bestellung)
  {
    HasOrderers(b.Positionen) && b.Total == PositionsTotal(b.Positionen)
  }

  /** The order `newOrder` writes. The service field holds the lower-cased
      token the user typed, not the catalog name. */
  function NewBestellung(sender: User, now: string, ld: string, l: LieferDienst): (b: Bestellung)
    ensures Consistent(b)
  {
    Bestellung(sender, now, ld, l.Telefonnummer, [], 0.0, 0.0)
  }

  /** The order after `addtoOrder`: one more position, total recomputed. */
  function WithPosition(b: Bestellung, p: Position): Bestellung
  {
    var ps := b.Positionen + [p];
    b.(Positionen := ps, Total := PositionsTotal(ps))
  }

  /** The order after `deletePosition`: position `i` removed, total
      recomputed. */
  function WithoutPosition(b: Bestellung, i: int): Bestellung
  {
    var r := RemovePosition(b, i);
    r.(Total := PositionsTotal(r.Positionen))
  }

  /** The order after `printPayment`: a non-zero parsed amount is the paid
      amount, otherwise the total is. */
  function WithPayed(b: Bestellung, payed: real): Bestellung
  {
    b.(Payed := if payed != 0.0 then payed else b.Total)
  }

  /** Adding a position that names an orderer keeps an order consistent and
      raises its total by the position's line total, leaving the earlier
      positions and every other field alone. */
  lemma WithPositionConsistent(b: Bestellung, p: Position)
    requires Consistent(b) && |p.Besteller| > 0
    ensures Consistent(WithPosition(b, p))
    ensures WithPosition(b, p).Total == b.Total + LineTotal(p)
    ensures WithPosition(b, p).Positionen[..|b.Positionen|] == b.Positionen
    ensures WithPosition(b, p).(Positionen := b.Positionen, Total := b.Total) == b
  {
    PositionsTotalAppend(b.Positionen, p);
    assert (b.Positionen + [p])[..|b.Positionen|] == b.Positionen;
  }

  /** Removing a position keeps an order consistent and lowers its total
      by that position's line total. */
  lemma WithoutPositionConsistent(b: Bestellung, i: int)
    requires Consistent(b) && 0 <= i < |b.Positionen|
    ensures Consistent(WithoutPosition(b, i))
    ensures WithoutPosition(b, i).Total == b.Total - LineTotal(b.Positionen[i])
  {
    RemovePositionTotal(b, i);
    var ps := RemovePosition(b, i).Positionen;
    forall k | 0 <= k < |ps| ensures |ps[k].Besteller| > 0 {
      if k < i { assert ps[k] == b.Positionen[k]; } else { assert ps[k] == b.Positionen[k + 1]; }
    }
  }

  /** The checks of `newOrder`: the service the first argument names. */
  function NewOrderChecks(catalog: seq<LieferDienst>, words: seq<string>): (c: Checked<(string, LieferDienst)>)
    ensures c.Go? ==> c.value.1 in catalog && NamedService(c.value.0)(c.value.1)
  {
    match Router.Bindings(words, NewSet.NV, NewSet.OV, 1)
    case Err(e) => Stop(Says(WrongArguments(e)))
    case Ok(vars) =>
      var k := FirstWhere(catalog, NamedService(vars[0]));
      if k == |catalog| then Stop(Says(ServiceNotFound)) else Go((vars[0], catalog[k]))
  }

  /** The slug of a new order: three random words, joined by dashes and
      lower-cased. */
  function Slug(z: string, a: string, n: string): string
  {
    ToLower(z + "-" + a + "-" + n)
  }

  /** `addtoOrder`'s quantity: 1 when the argument is absent, else the
      `strconv.Atoi` result. */
  function Amount(anzahl: string, parsed: Result<int>): Result<int>
  {
    if anzahl == "" then Ok(1) else parsed
  }

  /** The position `addtoOrder` builds. */
  function NewPosition(a: Artikel, v: Zusatz, extras: string, zs: seq<Zusatz>, amount: int, sender: User, kommentar: string): Position
  {
    Position(a.Nummer, a.Name, v.Name, extras, v.Preis + ExtrasTotal(zs), amount, [sender], kommentar)
  }

  /** The checks of `addtoOrder`, in the code's order: arguments, quantity,
      order, its service, article, versions, extras. The result is the
      store key and the position to append. */
  function AddChecks(catalog: seq<LieferDienst>, orders: map<string, Bestellung>, sender: User, words: seq<string>, parsed: Result<int>)
    : (c: Checked<(string, Position)>)
    ensures c.Go? ==> c.value.0 in orders && c.value.1.Besteller == [sender]
  {
    match Router.Bindings(words, AddSet.NV, AddSet.OV, 6)
    case Err(e) => Stop(Says(WrongArguments(e)))
    case Ok(vars) =>
      match Amount(vars[5], parsed)
      case Err(e) => Stop(Says("Menge konnte nicht konvertiert werden: " + e))
      case Ok(amount) =>
        var key := FileName(vars[0]);
        if key !in orders then Stop(Says(LoadFailed))
        else
          match PositionFor(catalog, orders[key], vars, amount, sender)
          case Stop(r) => Stop(r)
          case Go(pos) => Go((key, pos))
  }

  /** The part of `addtoOrder` that looks the article up in the order's
      service and builds the position: service, article, versions, extras. */
  function PositionFor(catalog: seq<LieferDienst>, b: Bestellung, vars: seq<string>, amount: int, sender: User)
    : (c: Checked<Position>)
    requires |vars| == 6
    ensures c.Go? ==> c.value.Besteller == [sender] && c.value.Anzahl == amount && c.value.Kommentar == vars[4]
  {
    var l := FirstWhere(catalog, NamedService(b.LieferDienst));
    if l == |catalog| then Stop(Says(ServiceNotFound))
    else
      var arts := catalog[l].Artikel;
      var k := FirstWhere(arts, NamedArticle(vars[1]));
      if k == |arts| then Stop(Says(ArticleNotFound))
      else ArticlePosition(arts[k], vars, amount, sender)
  }

  /** The position for a found article: its version and its extras. */
  function ArticlePosition(a: Artikel, vars: seq<string>, amount: int, sender: User): (c: Checked<Position>)
    requires |vars| == 6
    ensures c.Go? ==> c.value.Besteller == [sender] && c.value.Anzahl == amount && c.value.Kommentar == vars[4]
  {
    if a.Versionen == [] then Stop(Panic)
    else
      var v := ChosenVersion(a, vars[2]);
      match ExtrasOf(vars[3], a.Extras)
      case Err(e) => Stop(Says("Fehler beim parsen der extras:" + e + " Benutze !bestellung article $Lieferdienst für eine Liste"))
      case Ok(zs) => Go(NewPosition(a, v, vars[3], zs, amount, sender, vars[4]))
  }

  /** The checks of `deletePosition`: arguments, index, order, range, and
      the authorization, which the creator OR the position's first orderer
      passes. The result is the store key and the index. */
  function DeleteChecks(orders: map<string, Bestellung>, sender: User, words: seq<string>, parsed: Result<int>)
    : (c: Checked<(string, int)>)
    ensures c.Go? ==> c.value.0 in orders && 0 <= c.value.1 < |orders[c.value.0].Positionen|
  {
    match Router.Bindings(words, RemoveSet.NV, RemoveSet.OV, 2)
    case Err(e) => Stop(Says(WrongArguments(e)))
    case Ok(vars) =>
      match parsed
      case Err(e) => Stop(Says("Position konnte nicht konvertiert werden: " + e))
      case Ok(posi) =>
        var key := FileName(vars[0]);
        if key !in orders then Stop(Says(LoadFailed))
        else
          var b := orders[key];
          if posi >= |b.Positionen| || posi < 0 then Stop(Says("Position nicht vorhanden"))
          else if IsCreator(b, sender.MatrixID) then Go((key, posi))
          else if b.Positionen[posi].Besteller == [] then Stop(Panic)
          else if !IsBesteller(b.Positionen[posi], sender.MatrixID) then Stop(Says(Unauthorized))
          else Go((key, posi))
  }

  /** The checks of `removeOrder`: arguments, order, creator. */
  function CloseChecks(orders: map<string, Bestellung>, sender: User, words: seq<string>): (c: Checked<string>)
    ensures c.Go? ==> c.value in orders && IsCreator(orders[c.value], sender.MatrixID)
  {
    match Router.Bindings(words, CloseSet.NV, CloseSet.OV, 1)
    case Err(e) => Stop(Says(WrongArguments(e)))
    case Ok(vars) =>
      var key := FileName(vars[0]);
      if key !in orders then Stop(Says(LoadFailed))
      else if !IsCreator(orders[key], sender.MatrixID) then Stop(Says(Unauthorized))
      else Go(key)
  }

  /** The checks of `printPayment`: arguments, the paid amount (0 when
      absent), order. */
  function PrintPaymentChecks(orders: map<string, Bestellung>, words: seq<string>, parsed: Result<real>): (c: Checked<(string, real)>)
    ensures c.Go? ==> c.value.0 in orders
  {
    match Router.Bindings(words, PrintPaymentSet.NV, PrintPaymentSet.OV, 2)
    case Err(e) => Stop(Says(WrongArguments(e)))
    case Ok(vars) =>
      if vars[1] != "" && parsed.Err? then Stop(Says("Zahlung konnte nicht konvertiert werden: " + parsed.msg))
      else
        var payed := if vars[1] != "" then parsed.value else 0.0;
        var key := FileName(vars[0]);
        if key !in orders then Stop(Says(LoadFailed)) else Go((key, payed))
  }

  /** The `getPayment` view of an order: a position without an orderer
      panics in the split, and otherwise a zero total makes the shown
      discount infinite or NaN. */
  function PaymentView(b: Bestellung): Reply
  {
    if !HasOrderers(b.Positionen) then Panic
    else if b.Total == 0.0 then NonFinite
    else PaymentTable(b.Payed / b.Total, DebtRows(PaymentSplit(b.Positionen, b.Payed / b.Total)))
  }

  /** The reply when `strichliste.toml` cannot be loaded. */
  function LinkLoadFailed(e: string): Reply
  {
    Says("Fehler beim Laden der Strichlisten Info: " + e)
  }

  /** The checks of `addStrichliste`: arguments, then the load of the link
      file (`loadErr` is its outcome), then the ledger user found for the
      lower-cased user name. */
  function AddLinkChecks(address: string, words: seq<string>, loadErr: Option<string>, search: string -> Result<SiUserResponse>): (c: Checked<int>)
  {
    match Router.Bindings(words, AddStrichlisteSet.NV, AddStrichlisteSet.OV, 1)
    case Err(e) => Stop(Says(WrongArguments(e)))
    case Ok(vars) =>
      if loadErr.Some? then Stop(LinkLoadFailed(loadErr.value))
      else match StrichlistenID(search(SearchURL(address, vars[0])), vars[0])
      case Done(id) => Go(id)
      case Failed(e) => Stop(Says("Fehler beim finden des Strichlisten Users: " + e))
      case Panicked => Stop(Panic)
  }

  /** The comment of every settlement transaction. */
  function SettlementComment(b: Bestellung): string
  {
    "Bestellung bei " + b.LieferDienst + " am " + b.Datum
  }

  /** The payer `processStrichliste` uses: the second argument, else the
      creator. */
  function Payer(b: Bestellung, arg: string): string
  {
    if arg == "" then b.Ersteller.MatrixID else arg
  }

  /** The rows `processStrichliste` settles: the split of `calcPayment`,
      which has no rows for an order without positions, whatever its
      total. */
  function SettlementSplit(b: Bestellung): seq<PaymentInfo>
    requires HasOrderers(b.Positionen) && (b.Positionen == [] || b.Total != 0.0)
  {
    if b.Positionen == [] then [] else PaymentSplit(b.Positionen, b.Payed / b.Total)
  }

  /** The reply of `processStrichliste`: arguments, order, creator, a paid
      amount, the load of the link file (`loadErr` is its outcome), a
      linked payer, then one `doPayment` per row of the split. An order
      without positions settles nothing, with an empty table. */
  function ProcessOutcome(orders: map<string, Bestellung>, link: map<string, int>, address: string, sender: User, words: seq<string>, ledger: Ledger, loadErr: Option<string>): Reply
  {
    match Router.Bindings(words, ProcessStrichlisteSet.NV, ProcessStrichlisteSet.OV, 2)
    case Err(e) => Says(WrongArguments(e))
    case Ok(vars) =>
      var key := FileName(vars[0]);
      if key !in orders then Says(LoadFailed)
      else
        var b := orders[key];
        if !IsCreator(b, sender.MatrixID) then Says(Unauthorized)
        else if b.Payed == 0.0 then Says("Bestellung hat noch keinen gezahlten Geldwert")
        else if loadErr.Some? then LinkLoadFailed(loadErr.value)
        else if Payer(b, vars[1]) !in link then Says("Zahlender hat keine Strichliste verlinkt")
        else if !HasOrderers(b.Positionen) then Panic
        else if b.Positionen != [] && b.Total == 0.0 then NonFinite
        else
          var pi := SettlementSplit(b);
          Settlement("Bestellung bei " + b.LieferDienst + " Strichlisten Abrechnung",
                     Results(link[Payer(b, vars[1])], pi, SettlementComment(b), link, address, ledger))
  }

  /** `deletePosition` on a parsed index into a stored order: an index out
      of range is refused with "Position nicht vorhanden"; in range, and
      with an orderer on the position, it goes ahead exactly when the sender
      created the order OR is the position's first orderer. */
  lemma DeleteAuthorization(orders: map<string, Bestellung>, sender: User, words: seq<string>, parsed: Result<int>, vars: seq<string>)
    requires Router.Bindings(words, RemoveSet.NV, RemoveSet.OV, 2) == Ok(vars)
    requires parsed.Ok? && FileName(vars[0]) in orders
    ensures var b, i := orders[FileName(vars[0])], parsed.value;
      (i < 0 || i >= |b.Positionen|) ==> DeleteChecks(orders, sender, words, parsed) == Stop(Says("Position nicht vorhanden"))
    ensures var b, i := orders[FileName(vars[0])], parsed.value;
      0 <= i < |b.Positionen| && b.Positionen[i].Besteller != [] ==>
        (DeleteChecks(orders, sender, words, parsed) == Go((FileName(vars[0]), i)) <==>
         IsCreator(b, sender.MatrixID) || IsBesteller(b.Positionen[i], sender.MatrixID))
    ensures var b, i := orders[FileName(vars[0])], parsed.value;
      0 <= i < |b.Positionen| && b.Positionen[i].Besteller != [] ==>
        (DeleteChecks(orders, sender, words, parsed) == Stop(Says(Unauthorized)) <==>
         !IsCreator(b, sender.MatrixID) && !IsBesteller(b.Positionen[i], sender.MatrixID))
  {
  }

  /** `removeOrder` on a stored order goes ahead exactly for its creator. */
  lemma CloseAuthorization(orders: map<string, Bestellung>, sender: User, words: seq<string>, vars: seq<string>)
    requires Router.Bindings(words, CloseSet.NV, CloseSet.OV, 1) == Ok(vars)
    requires FileName(vars[0]) in orders
    ensures CloseChecks(orders, sender, words).Go? <==> IsCreator(orders[FileName(vars[0])], sender.MatrixID)
    ensures !IsCreator(orders[FileName(vars[0])], sender.MatrixID) ==> CloseChecks(orders, sender, words) == Stop(Says(Unauthorized))
  {
  }

  /** What `addtoOrder` appends on success: for the first article of the
      order's service matching the second argument by name or number, one
      position with the chosen version, the extras text as typed, the price
      of the version plus the matched extras, the quantity (1 when absent),
      the sender as its only orderer and the comment; stored under the
      order's own key. */
  lemma AddedPosition(catalog: seq<LieferDienst>, orders: map<string, Bestellung>, sender: User, words: seq<string>, parsed: Result<int>)
    requires AddChecks(catalog, orders, sender, words, parsed).Go?
    ensures Router.Bindings(words, AddSet.NV, AddSet.OV, 6).Ok?
    ensures var vars := Router.Bindings(words, AddSet.NV, AddSet.OV, 6).value;
      var (key, p) := AddChecks(catalog, orders, sender, words, parsed).value;
      var l := FirstWhere(catalog, NamedService(orders[key].LieferDienst));
      key == FileName(vars[0]) &&
      l < |catalog| &&
      var arts := catalog[l].Artikel;
      var k := FirstWhere(arts, NamedArticle(vars[1]));
      k < |arts| && arts[k].Versionen != [] &&
      var v := ChosenVersion(arts[k], vars[2]);
      var zs := ExtrasOf(vars[3], arts[k].Extras);
      zs.Ok? &&
      p.ArtikelName == arts[k].Name && p.ArtikelNummer == arts[k].Nummer &&
      p.Version == v.Name && p.Extras == vars[3] &&
      p.Einzelpreis == v.Preis + ExtrasTotal(zs.value) &&
      p.Besteller == [sender] && p.Kommentar == vars[4] &&
      (vars[5] == "" ==> p.Anzahl == 1) && (vars[5] != "" ==> parsed == Ok(p.Anzahl))
  {
  }

  /** An article the order's service does not offer is refused with
      "Artikel nicht gefunden". */
  lemma AddUnknownArticle(catalog: seq<LieferDienst>, orders: map<string, Bestellung>, sender: User, words: seq<string>, parsed: Result<int>, vars: seq<string>)
    requires Router.Bindings(words, AddSet.NV, AddSet.OV, 6) == Ok(vars)
    requires Amount(vars[5], parsed).Ok? && FileName(vars[0]) in orders
    requires var l := FirstWhere(catalog, NamedService(orders[FileName(vars[0])].LieferDienst));
      l < |catalog| && FirstWhere(catalog[l].Artikel, NamedArticle(vars[1])) == |catalog[l].Artikel|
    ensures AddChecks(catalog, orders, sender, words, parsed) == Stop(Says(ArticleNotFound))
  {
  }

  /** A settlement happens only for the order's creator, on a paid order,
      with the link file loaded and the payer (the creator by default)
      linked, and when the order has positions only with a non-zero total;
      it then holds exactly
      one entry per payee of `calcPayment`, the outcome of that payee's
      `doPayment` with the payer's ledger ID. */
  lemma SettlementPerPayee(orders: map<string, Bestellung>, link: map<string, int>, address: string, sender: User, words: seq<string>, ledger: Ledger, loadErr: Option<string>)
    requires ProcessOutcome(orders, link, address, sender, words, ledger, loadErr).Settlement?
    ensures Router.Bindings(words, ProcessStrichlisteSet.NV, ProcessStrichlisteSet.OV, 2).Ok?
    ensures var vars := Router.Bindings(words, ProcessStrichlisteSet.NV, ProcessStrichlisteSet.OV, 2).value;
      FileName(vars[0]) in orders &&
      var b := orders[FileName(vars[0])];
      IsCreator(b, sender.MatrixID) && b.Payed != 0.0 && loadErr.None? && Payer(b, vars[1]) in link &&
      (b.Positionen == [] || b.Total != 0.0) && HasOrderers(b.Positionen) &&
      var pi := SettlementSplit(b);
      var es := ProcessOutcome(orders, link, address, sender, words, ledger, loadErr).Results;
      (forall u :: u in es <==> u in FirstAppearances(FirstOrderers(b.Positionen))) &&
      (forall k :: 0 <= k < |pi| ==>
        pi[k].Payee in es && es[pi[k].Payee] == DoPayment(link[Payer(b, vars[1])], pi[k], SettlementComment(b), link, address, ledger).Result)
  {
    var vars := Router.Bindings(words, ProcessStrichlisteSet.NV, ProcessStrichlisteSet.OV, 2).value;
    var b := orders[FileName(vars[0])];
    var pi := SettlementSplit(b);
    if b.Positionen != [] {
      PaymentSplitRows(b.Positionen, b.Payed / b.Total);
    }
    ResultsPerPayee(link[Payer(b, vars[1])], pi, SettlementComment(b), link, address, ledger);
  }

  /** The transactions `processStrichliste` posts: none unless it gets as
      far as the settlement, then one `doPayment` per row of the split. */
  function ProcessPostings(orders: map<string, Bestellung>, link: map<string, int>, address: string, sender: User, words: seq<string>, ledger: Ledger, loadErr: Option<string>): seq<Posting>
  {
    if !ProcessOutcome(orders, link, address, sender, words, ledger, loadErr).Settlement? then []
    else
      SettlementPerPayee(orders, link, address, sender, words, ledger, loadErr);
      var vars := Router.Bindings(words, ProcessStrichlisteSet.NV, ProcessStrichlisteSet.OV, 2).value;
      var b := orders[FileName(vars[0])];
      Requests(link[Payer(b, vars[1])], SettlementSplit(b), SettlementComment(b), link, address, ledger)
  }

  /** Without a settlement `processStrichliste` posts nothing. With one,
      it posts at most one transaction per first orderer. Each credits the
      payer's ledger user with the order's comment. It is debited from the
      payee of some row of the split: a payee linked to another ledger
      user, charged that row's amount in cents, rounded up. The rows'
      payees and amounts are those of `PaymentSplitRows`. */
  /** The postings of a settlement's split, as `RequestsCreditPayer`
      states them, at most one per first orderer. */
  lemma SplitPostings(b: Bestellung, payer: int, link: map<string, int>, address: string, ledger: Ledger)
    requires HasOrderers(b.Positionen) && (b.Positionen == [] || b.Total != 0.0)
    ensures var pi := SettlementSplit(b);
      var posted := Requests(payer, pi, SettlementComment(b), link, address, ledger);
      |posted| <= |FirstAppearances(FirstOrderers(b.Positionen))| &&
      forall q :: q in posted ==>
        q.Transaction.RecipientID == payer && q.Transaction.Comment == SettlementComment(b) &&
        exists k :: (0 <= k < |pi| && pi[k].Payee.MatrixID in link && link[pi[k].Payee.MatrixID] != payer &&
          q == Posting(UserURL(address, link[pi[k].Payee.MatrixID]) + "/transaction",
                       SiTransaction(Ceil(pi[k].Amount * 100.0), payer, SettlementComment(b))))
  {
    var pi := SettlementSplit(b);
    if b.Positionen != [] {
      PaymentSplitRows(b.Positionen, b.Payed / b.Total);
    }
    assert |pi| == |FirstAppearances(FirstOrderers(b.Positionen))|;
    RequestsCreditPayer(payer, pi, SettlementComment(b), link, address, ledger);
  }

  lemma SettlementPostings(orders: map<string, Bestellung>, link: map<string, int>, address: string, sender: User, words: seq<string>, ledger: Ledger, loadErr: Option<string>)
    ensures !ProcessOutcome(orders, link, address, sender, words, ledger, loadErr).Settlement? ==>
      ProcessPostings(orders, link, address, sender, words, ledger, loadErr) == []
    ensures ProcessOutcome(orders, link, address, sender, words, ledger, loadErr).Settlement? ==>
      var vars := Router.Bindings(words, ProcessStrichlisteSet.NV, ProcessStrichlisteSet.OV, 2).value;
      var b := orders[FileName(vars[0])];
      var payer := link[Payer(b, vars[1])];
      var pi := SettlementSplit(b);
      var posted := ProcessPostings(orders, link, address, sender, words, ledger, loadErr);
      |posted| <= |FirstAppearances(FirstOrderers(b.Positionen))| &&
      forall q :: q in posted ==>
        q.Transaction.RecipientID == payer && q.Transaction.Comment == SettlementComment(b) &&
        exists k :: (0 <= k < |pi| && pi[k].Payee.MatrixID in link && link[pi[k].Payee.MatrixID] != payer &&
          q == Posting(UserURL(address, link[pi[k].Payee.MatrixID]) + "/transaction",
                       SiTransaction(Ceil(pi[k].Amount * 100.0), payer, SettlementComment(b))))
  {
    if ProcessOutcome(orders, link, address, sender, words, ledger, loadErr).Settlement? {
      SettlementPerPayee(orders, link, address, sender, words, ledger, loadErr);
      var vars := Router.Bindings(words, ProcessStrichlisteSet.NV, ProcessStrichlisteSet.OV, 2).value;
      var b := orders[FileName(vars[0])];
      var payer := link[Payer(b, vars[1])];
      assert ProcessPostings(orders, link, address, sender, words, ledger, loadErr) == Requests(payer, SettlementSplit(b), SettlementComment(b), link, address, ledger);
      SplitPostings(b, payer, link, address, ledger);
    }
  }

  /** An order without positions, paid and with a linked payer, settles
      with an empty table and posts nothing, whatever its total (a zero
      total included, as `print-payment $Bestellung $Gezahlt` leaves it). */
  lemma EmptyOrderSettlesNothing(orders: map<string, Bestellung>, link: map<string, int>, address: string, sender: User, words: seq<string>, ledger: Ledger, vars: seq<string>)
    requires Router.Bindings(words, ProcessStrichlisteSet.NV, ProcessStrichlisteSet.OV, 2) == Ok(vars)
    requires FileName(vars[0]) in orders
    requires var b := orders[FileName(vars[0])];
      b.Positionen == [] && IsCreator(b, sender.MatrixID) && b.Payed != 0.0 && Payer(b, vars[1]) in link
    ensures ProcessOutcome(orders, link, address, sender, words, ledger, None) ==
      Settlement("Bestellung bei " + orders[FileName(vars[0])].LieferDienst + " Strichlisten Abrechnung", map[])
    ensures ProcessPostings(orders, link, address, sender, words, ledger, None) == []
  {
  }

  /** The bot's order handler. The catalog is read when the handler
      starts. The orders (one file per order, keyed by name and ".toml")
      and the links from Matrix IDs to ledger users are the state its
      commands change. The links and the ledger address are the contents of
      `strichliste.toml`, which every ledger command loads afresh; the
      outcome of that load is a parameter, `loadErr`, and nothing writes a
      different address back. */
  class BestellungHandler {
    const Lieferdienste: seq<LieferDienst>
    const Address: string
    var orders: map<string, Bestellung>
    var Link: map<string, int>

    /** Every stored order is consistent. */
    predicate Valid()
      reads this
    {
      forall k :: k in orders ==> Consistent(orders[k])
    }

    constructor (catalog: seq<LieferDienst>, address: string, link: map<string, int>)
      ensures Lieferdienste == catalog && Address == address
      ensures orders == map[] && Link == link
      ensures Valid()
    {
      Lieferdienste := catalog;
      Address := address;
      orders := map[];
      Link := link;
    }

    /** `searchLieferdienst`: the first service whose lower-cased name is
      the token, or not found and an empty service. */
    method SearchLieferdienst(ld: string) returns (found: bool, res: LieferDienst)
      ensures found <==> FirstWhere(Lieferdienste, NamedService(ld)) < |Lieferdienste|
      ensures found ==> res == Lieferdienste[FirstWhere(Lieferdienste, NamedService(ld))]
      ensures !found ==> res == NoService
    {
      var k;
      found, k := Find(Lieferdienste, NamedService(ld));
      res := if found then Lieferdienste[k] else NoService;
    }

    /** `newOrder`: on success a fresh order for the named service under
      the slug `z-a-n`; the random words and the clock are parameters, and
      `writeErr` is the outcome of writing the file. */
    method NewOrder(sender: User, words: seq<string>, z: string, a: string, n: string, now: string, writeErr: Option<string>)
      returns (reply: Reply)
      modifies this
      ensures Link == old(Link)
      ensures var c := NewOrderChecks(Lieferdienste, words);
        if c.Stop? then reply == c.reply && orders == old(orders)
        else if writeErr.Some? then reply == Says("Fehler bei erstellung der Bestellung") && orders == old(orders)
        else
          reply == Says("Neue Bestellung mit dem Name: " + Slug(z, a, n) + " erstellt") &&
          orders == old(orders)[FileName(Slug(z, a, n)) := NewBestellung(sender, now, c.value.0, c.value.1)]
      ensures old(Valid()) ==> Valid()
    {
      var args := BindArgs(words, NewSet, 1);
      if args.Err? {
        return Says(WrongArguments(args.msg));
      }
      var ld := args.value[0];
      var found, l := SearchLieferdienst(ld);
      if !found {
        return Says(ServiceNotFound);
      }
      var bn := ToLower(z + "-" + a + "-" + n);
      var be := Bestellung(sender, now, ld, l.Telefonnummer, [], 0.0, 0.0);
      if writeErr.Some? {
        return Says("Fehler bei erstellung der Bestellung");
      }
      orders := orders[bn + ".toml" := be];
      reply := Says("Neue Bestellung mit dem Name: " + bn + " erstellt");
    }

    /** The lookups of `addtoOrder` that build the position to append. */
    method BuildPosition(be: Bestellung, vars: seq<string>, amount: int, sender: User) returns (c: Checked<Position>)
      requires |vars| == 6
      ensures c == PositionFor(Lieferdienste, be, vars, amount, sender)
    {
      var ex, ld := SearchLieferdienst(be.LieferDienst);
      if !ex {
        return Stop(Says(ServiceNotFound));
      }
      var found, k := Find(ld.Artikel, NamedArticle(vars[1]));
      if !found {
        return Stop(Says(ArticleNotFound));
      }
      c := MakePosition(ld.Artikel[k], vars, amount, sender);
    }

    /** The version and extras lookups of `addtoOrder` for a found article. */
    method MakePosition(desiredArtikel: Artikel, vars: seq<string>, amount: int, sender: User) returns (c: Checked<Position>)
      requires |vars| == 6
      ensures c == ArticlePosition(desiredArtikel, vars, amount, sender)
    {
      if desiredArtikel.Versionen == [] {
        return Stop(Panic);
      }
      var desiredVersion := ChooseVersion(desiredArtikel, vars[2]);
      var desiredExtras := ParseExtras(vars[3], desiredArtikel);
      if desiredExtras.Err? {
        return Stop(Says("Fehler beim parsen der extras:" + desiredExtras.msg + " Benutze !bestellung article $Lieferdienst für eine Liste"));
      }
      var extrasTotal := GetExtrasTotal(desiredExtras.value);
      c := Go(Position(desiredArtikel.Nummer, desiredArtikel.Name, desiredVersion.Name, vars[3],
                       desiredVersion.Preis + extrasTotal, amount, [sender], vars[4]));
    }

    /** The checks of `addtoOrder` against the current store, with the
      position they build. */
    method CheckAdd(sender: User, words: seq<string>, parsed: Result<int>) returns (c: Checked<(string, Position)>)
      ensures c == AddChecks(Lieferdienste, orders, sender, words, parsed)
    {
      var args := BindArgs(words, AddSet, 6);
      if args.Err? {
        return Stop(Says(WrongArguments(args.msg)));
      }
      var vars := args.value;
      var amount := 1;
      if vars[5] != "" {
        if parsed.Err? {
          return Stop(Says("Menge konnte nicht konvertiert werden: " + parsed.msg));
        }
        amount := parsed.value;
      }
      var key := vars[0] + ".toml";
      if key !in orders {
        return Stop(Says(LoadFailed));
      }
      var p := BuildPosition(orders[key], vars, amount, sender);
      if p.Stop? {
        return Stop(p.reply);
      }
      c := Go((key, p.value));
    }

    /** `addtoOrder`: appends exactly one position to the named order and
      recomputes its total; `parsed` is `strconv.Atoi` of the quantity
      argument, consulted only when that argument is present. */
    method AddToOrder(sender: User, words: seq<string>, parsed: Result<int>, writeErr: Option<string>) returns (reply: Reply)
      modifies this
      ensures Link == old(Link)
      ensures var c := AddChecks(Lieferdienste, old(orders), sender, words, parsed);
        if c.Stop? then reply == c.reply && orders == old(orders)
        else if writeErr.Some? then reply == Says("Fehler beim Speichern der bestellung: " + writeErr.value) && orders == old(orders)
        else reply == Says("Artikel hinzugefügt") && orders == old(orders)[c.value.0 := WithPosition(old(orders)[c.value.0], c.value.1)]
      ensures old(Valid()) ==> Valid()
    {
      var c := CheckAdd(sender, words, parsed);
      if c.Stop? {
        return c.reply;
      }
      var (key, posi) := c.value;
      var be := orders[key];
      var nb := be.(Positionen := be.Positionen + [posi]);
      nb := CalcTotal(nb);
      if writeErr.Some? {
        return Says("Fehler beim Speichern der bestellung: " + writeErr.value);
      }
      if Valid() {
        WithPositionConsistent(be, posi);
      }
      orders := orders[key := nb];
      reply := Says("Artikel hinzugefügt");
    }

    /** The checks of `deletePosition` against the current store. */
    method CheckDelete(sender: User, words: seq<string>, parsed: Result<int>) returns (c: Checked<(string, int)>)
      ensures c == DeleteChecks(orders, sender, words, parsed)
    {
      var args := BindArgs(words, RemoveSet, 2);
      if args.Err? {
        return Stop(Says(WrongArguments(args.msg)));
      }
      var order := args.value[0];
      if parsed.Err? {
        return Stop(Says("Position konnte nicht konvertiert werden: " + parsed.msg));
      }
      var posi := parsed.value;
      var key := order + ".toml";
      if key !in orders {
        return Stop(Says(LoadFailed));
      }
      var be := orders[key];
      if posi >= |be.Positionen| || posi < 0 {
        return Stop(Says("Position nicht vorhanden"));
      }
      if !IsCreator(be, sender.MatrixID) {
        if be.Positionen[posi].Besteller == [] {
          return Stop(Panic);
        }
        if !IsBesteller(be.Positionen[posi], sender.MatrixID) {
          return Stop(Says(Unauthorized));
        }
      }
      c := Go((key, posi));
    }

    /** `deletePosition`: removes the indexed position when the sender is
      the order's creator or the position's first orderer; `parsed` is
      `strconv.Atoi` of the index argument. */
    method DeletePosition(sender: User, words: seq<string>, parsed: Result<int>, writeErr: Option<string>) returns (reply: Reply)
      modifies this
      ensures Link == old(Link)
      ensures var c := DeleteChecks(old(orders), sender, words, parsed);
        if c.Stop? then reply == c.reply && orders == old(orders)
        else if writeErr.Some? then reply == Says("Fehler beim Speicerhn der bestellung: " + writeErr.value) && orders == old(orders)
        else reply == Says("Artikel entfernt") && orders == old(orders)[c.value.0 := WithoutPosition(old(orders)[c.value.0], c.value.1)]
      ensures old(Valid()) ==> Valid()
    {
      var c := CheckDelete(sender, words, parsed);
      if c.Stop? {
        return c.reply;
      }
      var (key, posi) := c.value;
      var be := orders[key];
      var nb := RemovePosition(be, posi);
      nb := CalcTotal(nb);
      if writeErr.Some? {
        return Says("Fehler beim Speicerhn der bestellung: " + writeErr.value);
      }
      if Valid() {
        WithoutPositionConsistent(be, posi);
      }
      orders := orders[key := nb];
      reply := Says("Artikel entfernt");
    }

    /** `removeOrder`: only the creator closes an order, which deletes its
      file; `deleteErr` is the outcome of the deletion. */
    method RemoveOrder(sender: User, words: seq<string>, deleteErr: Option<string>) returns (reply: Reply)
      modifies this
      ensures Link == old(Link)
      ensures var c := CloseChecks(old(orders), sender, words);
        if c.Stop? then reply == c.reply && orders == old(orders)
        else if deleteErr.Some? then reply == Says("Error deleting file: " + deleteErr.value) && orders == old(orders)
        else reply == Says("Bestellung geschlossen") && orders == old(orders) - {c.value}
      ensures old(Valid()) ==> Valid()
    {
      var args := BindArgs(words, CloseSet, 1);
      if args.Err? {
        return Says(WrongArguments(args.msg));
      }
      var key := args.value[0] + ".toml";
      if key !in orders {
        return Says(LoadFailed);
      }
      if !IsCreator(orders[key], sender.MatrixID) {
        return Says(Unauthorized);
      }
      if deleteErr.Some? {
        return Says("Error deleting file: " + deleteErr.value);
      }
      orders := orders - {key};
      reply := Says("Bestellung geschlossen");
    }

    /** The checks of `printPayment` against the current store, with the
      parsed amount (zero when absent). */
    method CheckPrint(words: seq<string>, parsed: Result<real>) returns (c: Checked<(string, real)>)
      ensures c == PrintPaymentChecks(orders, words, parsed)
    {
      var args := BindArgs(words, PrintPaymentSet, 2);
      if args.Err? {
        return Stop(Says(WrongArguments(args.msg)));
      }
      var order, payeds := args.value[0], args.value[1];
      var payed := 0.0;
      if payeds != "" {
        if parsed.Err? {
          return Stop(Says("Zahlung konnte nicht konvertiert werden: " + parsed.msg));
        }
        payed := parsed.value;
      }
      var key := order + ".toml";
      if key !in orders {
        return Stop(Says(LoadFailed));
      }
      c := Go((key, payed));
    }

    /** `printPayment`: records the paid amount (the parsed argument, or
      the total when it is zero or absent), writes the order back and shows
      the debt split; `parsed` is `strconv.ParseFloat` of the amount
      argument. */
    method PrintPayment(words: seq<string>, parsed: Result<real>, writeErr: Option<string>) returns (reply: Reply)
      modifies this
      ensures Link == old(Link)
      ensures var c := PrintPaymentChecks(old(orders), words, parsed);
        if c.Stop? then reply == c.reply && orders == old(orders)
        else if writeErr.Some? then reply == Says("Fehler beim Speichern der bestellung: " + writeErr.value) && orders == old(orders)
        else
          var b := WithPayed(old(orders)[c.value.0], c.value.1);
          orders == old(orders)[c.value.0 := b] && reply == PaymentView(b)
      ensures old(Valid()) ==> Valid()
    {
      var c := CheckPrint(words, parsed);
      if c.Stop? {
        return c.reply;
      }
      var (key, payed) := c.value;
      var be := orders[key];
      if payed != 0.0 {
        be := be.(Payed := payed);
      } else {
        be := be.(Payed := be.Total);
      }
      if writeErr.Some? {
        return Says("Fehler beim Speichern der bestellung: " + writeErr.value);
      }
      orders := orders[key := be];
      reply := GetPayment(be);
    }

    /** The checks of `addStrichliste`: the ledger user for the named
      account. */
    method CheckLink(words: seq<string>, loadErr: Option<string>, search: string -> Result<SiUserResponse>) returns (c: Checked<int>)
      ensures c == AddLinkChecks(Address, words, loadErr, search)
    {
      var args := BindArgs(words, AddStrichlisteSet, 1);
      if args.Err? {
        return Stop(Says(WrongArguments(args.msg)));
      }
      if loadErr.Some? {
        return Stop(LinkLoadFailed(loadErr.value));
      }
      var id := GetStrichlistenID(Address, args.value[0], search);
      match id
      case Failed(e) => c := Stop(Says("Fehler beim finden des Strichlisten Users: " + e));
      case Panicked => c := Stop(Panic);
      case Done(v) => c := Go(v);
    }

    /** `addStrichliste`: links the sender's Matrix ID to the ledger user
      found for the given name; `search` answers the ledger's user search. */
    method AddStrichliste(sender: User, words: seq<string>, loadErr: Option<string>, search: string -> Result<SiUserResponse>, writeErr: Option<string>)
      returns (reply: Reply)
      modifies this
      ensures orders == old(orders)
      ensures var c := AddLinkChecks(Address, words, loadErr, search);
        if c.Stop? then reply == c.reply && Link == old(Link)
        else if writeErr.Some? then reply == Says("Fehler beim speichern der Strichlisten Info: " + writeErr.value) && Link == old(Link)
        else reply == Says("Link hinzugefügt") && Link == old(Link)[sender.MatrixID := c.value]
    {
      var c := CheckLink(words, loadErr, search);
      if c.Stop? {
        return c.reply;
      }
      if writeErr.Some? {
        return Says("Fehler beim speichern der Strichlisten Info: " + writeErr.value);
      }
      Link := Link[sender.MatrixID := c.value];
      reply := Says("Link hinzugefügt");
    }

    /** `removeStrichliste`: drops the sender's link, if any, once the link
      file has loaded. */
    method RemoveStrichliste(sender: User, loadErr: Option<string>, writeErr: Option<string>) returns (reply: Reply)
      modifies this
      ensures orders == old(orders)
      ensures loadErr.Some? ==> reply == LinkLoadFailed(loadErr.value) && Link == old(Link)
      ensures loadErr.None? && writeErr.Some? ==> reply == Says("Fehler beim speichern der Strichlisten Info: " + writeErr.value) && Link == old(Link)
      ensures loadErr.None? && writeErr.None? ==> reply == Says("Link entfernt") && Link == old(Link) - {sender.MatrixID}
    {
      if loadErr.Some? {
        return LinkLoadFailed(loadErr.value);
      }
      if writeErr.Some? {
        return Says("Fehler beim speichern der Strichlisten Info: " + writeErr.value);
      }
      Link := Link - {sender.MatrixID};
      reply := Says("Link entfernt");
    }

    /** `processStrichliste`: settles the named order on the ledger. It
      changes neither the orders nor the links. */
    method ProcessStrichliste(sender: User, words: seq<string>, ledger: Ledger, loadErr: Option<string>) returns (reply: Reply, posted: seq<Posting>)
      ensures reply == ProcessOutcome(orders, Link, Address, sender, words, ledger, loadErr)
      ensures posted == ProcessPostings(orders, Link, Address, sender, words, ledger, loadErr)
    {
      posted := [];
      var args := BindArgs(words, ProcessStrichlisteSet, 2);
      if args.Err? {
        return Says(WrongArguments(args.msg)), [];
      }
      var order, payer := args.value[0], args.value[1];
      var key := order + ".toml";
      if key !in orders {
        return Says(LoadFailed), [];
      }
      var be := orders[key];
      if !IsCreator(be, sender.MatrixID) {
        return Says(Unauthorized), [];
      }
      if be.Payed == 0.0 {
        return Says("Bestellung hat noch keinen gezahlten Geldwert"), [];
      }
      if loadErr.Some? {
        return LinkLoadFailed(loadErr.value), [];
      }
      if payer == "" {
        payer := be.Ersteller.MatrixID;
      }
      if payer !in Link {
        return Says("Zahlender hat keine Strichliste verlinkt"), [];
      }
      var siPayer := Link[payer];
      if !HasOrderers(be.Positionen) {
        return Panic, [];
      }
      var pi: seq<PaymentInfo> := [];
      if be.Positionen != [] {
        if be.Total == 0.0 {
          return NonFinite, [];
        }
        var off;
        pi, off := CalcPayment(be);
      }
      var c := "Bestellung bei " + be.LieferDienst + " am " + be.Datum;
      var es;
      es, posted := DoPayments(siPayer, pi, c, Link, Address, ledger);
      reply := Settlement("Bestellung bei " + be.LieferDienst + " Strichlisten Abrechnung", es);
    }
  }

  /** `getPayment`: the discount factor and one row per payee of
      `calcPayment`. */
  method GetPayment(b: Bestellung) returns (reply: Reply)
    ensures reply == PaymentView(b)
  {
    if !HasOrderers(b.Positionen) {
      return Panic;
    }
    if b.Total == 0.0 {
      return NonFinite;
    }
    var pi, off := CalcPayment(b);
    reply := PaymentTable(off, DebtRows(pi));
  }
}
