/** The text-command router every handler of the bot shares: the prefix test
    on incoming messages, the prefix strip, the split into words, the
    dispatch to a registered sub-command (with `help`), the removal of one
    word, and the binding of words to a handler's argument variables. */
module Router {
  import opened Wrappers
  import opened Text

  /** The initial `CommandPrefix`; `SetCommandPrefix` can replace it, so the
      members below take the prefix in force as a parameter. */
  const DefaultCommandPrefix := "!"

  /** The `WrongArguments` template with `%v` filled in. */
  function WrongArguments(cmd: string): string
  {
    "Falsche Anzahl an Argumenten, benutze " + cmd + " help für Hilfe."
  }

  /** The `unkownCommand` template with `%v` filled in. */
  function UnknownCommand(cmd: string): string
  {
    "Unbekanntes Kommando, benutze " + cmd + " help für Hilfe."
  }

  /** A registered sub-command: its help text, usage and the numbers of
      required (`NV`) and optional (`OV`) arguments it binds. The handler
      function itself is represented by the key under which the set is
      registered. */
  datatype SubHandlerSet = SubHandlerSet(H: string, U: string, NV: nat, OV: nat)

  type SubHandlers = map<string, SubHandlerSet>

  /** What the router looks at in a chat event: whether it is a message, and
      its body. */
  datatype Event = Event(IsMessage: bool, Body: string)

  /** `IsMessagewithPrefix`: a message whose lower-cased body starts with the
      command prefix followed by the handler's command word. */
  predicate IsMessageWithPrefix(evt: Event, commandPrefix: string, prefix: string)
  {
    evt.IsMessage && HasPrefix(ToLower(evt.Body), commandPrefix + prefix)
  }

  /** `StripPrefix`: removes one leading `commandPrefix + prefix + " "`,
      compared case-sensitively. */
  function StripPrefix(message: string, commandPrefix: string, prefix: string): (r: string)
    ensures HasPrefix(message, commandPrefix + prefix + " ") ==> commandPrefix + prefix + " " + r == message
    ensures !HasPrefix(message, commandPrefix + prefix + " ") ==> r == message
  {
    TrimPrefix(message, commandPrefix + prefix + " ")
  }

  /** A line as a CSV reader sees it: a `\r` before the line's end (or
      before the end of the input) is dropped. */
  function DropCR(line: string): string
  {
    if line != [] && line[|line| - 1] == '\r' then line[..|line| - 1] else line
  }

  /** A line the CSV reader skips: nothing left once the line end is
      removed. */
  predicate Blank(line: string)
  {
    DropCR(line) == ""
  }

  /** `csv.Reader.Read` with `Comma = ' '` on unquoted input: blank lines
      are skipped, the first other line is the record, and its fields are
      the pieces between spaces. Input made only of blank lines is the
      reader's end-of-file error. */
  function GetContent(message: string): (r: Result<seq<string>>)
    ensures r.Err? <==> forall k :: 0 <= k < |Split(message, '\n')| ==> Blank(Split(message, '\n')[k])
    ensures r.Err? ==> r.msg == "EOF"
    ensures r.Ok? ==> |r.value| >= 1
    ensures r.Ok? ==> forall k :: 0 <= k < |r.value| ==> ' ' !in r.value[k] && '\n' !in r.value[k]
    ensures r.Ok? ==> exists i :: (0 <= i < |Split(message, '\n')| && !Blank(Split(message, '\n')[i]) &&
      Join(r.value, ' ') == DropCR(Split(message, '\n')[i]) &&
      forall j :: 0 <= j < i ==> Blank(Split(message, '\n')[j]))
  {
    var lines := Split(message, '\n');
    var i := FirstWhere(lines, l => !Blank(l));
    if i == |lines| then Err("EOF")
    else
      var line := DropCR(lines[i]);
      JoinSplit(line, ' ');
      assert forall c :: c in line ==> c in lines[i];
      Ok(Split(line, ' '))
  }

  /** A message of one line, with no carriage return, is one record: the
      end-of-file error when empty, otherwise its pieces between spaces. */
  lemma GetContentOneLine(message: string)
    requires '\n' !in message && '\r' !in message
    ensures GetContent(message) == if message == "" then Err("EOF") else Ok(Split(message, ' '))
  {
    SplitWord(message, '\n');
    if message != "" {
      assert message[|message| - 1] in message;
    }
  }

  /** A newline ends the record: whatever follows the first non-blank
      line (as in `add 1 pizza` and then `noch was` on the next line) does
      not reach the handler. */
  lemma GetContentFirstLine(line: string, more: string)
    requires line != "" && '\n' !in line && '\r' !in line
    ensures GetContent(line + "\n" + more) == Ok(Split(line, ' '))
  {
    SplitLine(line, more, '\n');
    assert line + "\n" + more == line + ['\n'] + more;
    assert line[|line| - 1] in line;
  }

  /** Splitting at the first separator: the part before it, then the
      pieces of the rest. */
  lemma {:induction false} SplitLine(a: string, b: string, sep: char)
    requires sep !in a
    ensures Split(a + [sep] + b, sep) == [a] + Split(b, sep)
  {
    if a == [] {
      assert (a + [sep] + b)[1..] == b;
    } else {
      assert (a + [sep] + b)[1..] == a[1..] + [sep] + b;
      SplitLine(a[1..], b, sep);
      assert [a[0]] + a[1..] == a;
    }
  }

  function StripPrefixAndGetContent(message: string, commandPrefix: string, prefix: string): Result<seq<string>>
  {
    GetContent(StripPrefix(message, commandPrefix, prefix))
  }

  /** The specification of `RemoveWord`: the sequence without element `i`. */
  function Removed<T>(s: seq<T>, i: nat): (r: seq<T>)
    requires i < |s|
    ensures |r| == |s| - 1
    ensures forall k :: 0 <= k < i ==> r[k] == s[k]
    ensures forall k :: i <= k < |r| ==> r[k] == s[k + 1]
  {
    s[..i] + s[i + 1..]
  }

  /** `RemoveWord(slice, s)`: `append(slice[:s], slice[s+1:]...)` shifts the
      tail one place left inside the same backing array and returns a slice
      one shorter; the last cell of the array keeps its old value. */
  method RemoveWord(a: array<string>, s: nat) returns (n: nat)
    requires s < a.Length
    modifies a
    ensures n == a.Length - 1
    ensures a[..n] == Removed(old(a[..]), s)
    ensures a[n] == old(a[a.Length - 1])
  {
    n := a.Length - 1;
    var i := s;
    while i < n
      invariant s <= i <= n
      invariant forall k :: 0 <= k < s ==> a[k] == old(a[k])
      invariant forall k :: s <= k < i ==> a[k] == old(a[k + 1])
      invariant forall k :: i <= k < a.Length ==> a[k] == old(a[k])
    {
      a[i] := a[i + 1];
      i := i + 1;
    }
    assert a[..n] == Removed(old(a[..]), s);
  }

  /** What routing an event comes to. `ListCommands` is the `help` reply
      that lists the registered commands, whose text depends on the map's
      iteration order; `Dispatch` calls the registered handler with the
      remaining words. */
  datatype Outcome =
    | NotHandled
    | Reply(text: string)
    | ListCommands
    | Dispatch(command: string, handler: SubHandlerSet, words: seq<string>)

  /** The branching of `SubHandlers.Handle` for the handler registered under
      the word `command`. */
  function Route(subs: SubHandlers, commandPrefix: string, command: string, evt: Event): (o: Outcome)
    ensures o.NotHandled? <==> !IsMessageWithPrefix(evt, commandPrefix, command)
    ensures o.Dispatch? ==> o.command in subs && o.handler == subs[o.command] && ToLower(o.command) == o.command
    ensures o.Dispatch? ==> (StripPrefixAndGetContent(evt.Body, commandPrefix, command).Ok? &&
      var ws := StripPrefixAndGetContent(evt.Body, commandPrefix, command).value;
      o.command == ToLower(ws[0]) && o.words == Removed(ws, 0) &&
      !(o.command == "help" && (o.words == [] || o.words[0] in subs)))
  {
    if !IsMessageWithPrefix(evt, commandPrefix, command) then NotHandled
    else
      match StripPrefixAndGetContent(evt.Body, commandPrefix, command)
      case Err(e) => Reply("Fehler bei decodieren der Nachricht: " + e)
      case Ok(words) =>
        var cmd := ToLower(words[0]);
        var rest := Removed(words, 0);
        ToLowerIdempotent(words[0]);
        if cmd == "help" && rest == [] then ListCommands
        else if cmd == "help" && rest[0] in subs then Reply(subs[rest[0]].H)
        else if cmd !in subs then Reply(UnknownCommand(commandPrefix + command))
        else Dispatch(cmd, subs[cmd], rest)
  }

  /** A decoded message whose lower-cased first word is registered, and
      which is not a `help` that `Route` answers itself, calls that word's
      handler with the remaining words. */
  lemma RouteDispatches(subs: SubHandlers, commandPrefix: string, command: string, evt: Event)
    requires IsMessageWithPrefix(evt, commandPrefix, command)
    requires StripPrefixAndGetContent(evt.Body, commandPrefix, command).Ok?
    requires var ws := StripPrefixAndGetContent(evt.Body, commandPrefix, command).value;
      ToLower(ws[0]) in subs && !(ToLower(ws[0]) == "help" && (Removed(ws, 0) == [] || Removed(ws, 0)[0] in subs))
    ensures var ws := StripPrefixAndGetContent(evt.Body, commandPrefix, command).value;
      Route(subs, commandPrefix, command, evt) == Dispatch(ToLower(ws[0]), subs[ToLower(ws[0])], Removed(ws, 0))
  {
  }

  /** The message that `Handle` sends for `ListCommands`, given the order in
      which the map yielded its keys. */
  function HelpText(keys: seq<string>): string
  {
    "Verfügbare Kommandos sind: \n" + Listing(keys)
  }

  /** Every key followed by one space, in the given order. */
  function Listing(keys: seq<string>): string
  {
    if keys == [] then "" else Listing(keys[..|keys| - 1]) + keys[|keys| - 1] + " "
  }

  /** `getAvailableCommands`: the keys in the map's iteration order, which Go
      leaves unspecified; `order` is that order. */
  method GetAvailableCommands(subs: SubHandlers) returns (result: string, ghost order: seq<string>)
    ensures forall k :: k in order <==> k in subs
    ensures Distinct(order)
    ensures result == Listing(order)
  {
    var keys := subs.Keys;
    result := "";
    order := [];
    while keys != {}
      invariant forall k :: k in subs <==> (k in keys || k in order)
      invariant forall k :: k in keys ==> k !in order
      invariant Distinct(order)
      invariant result == Listing(order)
      decreases |keys|
    {
      var k :| k in keys;
      assert (order + [k])[..|order|] == order;
      result := result + k + " ";
      order := order + [k];
      keys := keys - {k};
    }
  }

  /** `SubHandlers.Handle`: routes the event and, for a bare `help`, renders
      the command list in some order of the map's keys. */
  method Handle(subs: SubHandlers, commandPrefix: string, command: string, evt: Event)
    returns (o: Outcome, ghost order: seq<string>)
    ensures !Route(subs, commandPrefix, command, evt).ListCommands? ==> o == Route(subs, commandPrefix, command, evt)
    ensures Route(subs, commandPrefix, command, evt).ListCommands? ==>
      o == Reply(HelpText(order)) && Distinct(order) && (forall k :: k in order <==> k in subs)
  {
    o := Route(subs, commandPrefix, command, evt);
    order := [];
    if o.ListCommands? {
      var listing;
      listing, order := GetAvailableCommands(subs);
      o := Reply("Verfügbare Kommandos sind: \n" + listing);
    }
  }

  /** A message without the prefix is left to other handlers. */
  lemma RouteIgnoresOtherMessages(subs: SubHandlers, commandPrefix: string, command: string, body: string)
    requires !HasPrefix(ToLower(body), commandPrefix + command)
    ensures Route(subs, commandPrefix, command, Event(true, body)) == NotHandled
    ensures Route(subs, commandPrefix, command, Event(false, body)) == NotHandled
  {
  }

  /** `help` for a word that is not registered falls through to the lookup
      of `help` itself, which no handler registers, and so yields the
      unknown-command reply. */
  lemma HelpForUnknownCommand(subs: SubHandlers, command: string, x: string)
    requires "help" !in subs && x !in subs && ' ' !in x && x != "" && '\n' !in x && '\r' !in x
    requires ' ' !in command && IsLower(command)
    ensures Route(subs, DefaultCommandPrefix, command, Event(true, "!" + command + " help " + x))
         == Reply(UnknownCommand("!" + command))
  {
    HelpWords(command, x);
  }

  /** `help x` for a registered `x` replies with that command's help text. */
  lemma HelpForRegisteredCommand(subs: SubHandlers, command: string, x: string)
    requires x in subs && ' ' !in x && x != "" && '\n' !in x && '\r' !in x
    requires ' ' !in command && IsLower(command)
    ensures Route(subs, DefaultCommandPrefix, command, Event(true, "!" + command + " help " + x))
         == Reply(subs[x].H)
  {
    HelpWords(command, x);
  }

  /** The message `!<command> help <x>` passes the prefix test and gives
      the words `help` and `x`. */
  lemma HelpWords(command: string, x: string)
    requires ' ' !in x && ' ' !in command && IsLower(command) && '\n' !in x && '\r' !in x
    ensures IsMessageWithPrefix(Event(true, "!" + command + " help " + x), DefaultCommandPrefix, command)
    ensures StripPrefixAndGetContent("!" + command + " help " + x, DefaultCommandPrefix, command) == Ok(["help", x])
    ensures ToLower("help") == "help"
  {
    var h := "help";
    forall i | 0 <= i < |h| ensures ToLower(h)[i] == h[i] {
    }
    var body := "!" + command + " help " + x;
    var p := "!" + command;
    assert IsLower(p) by {
      forall k | 0 <= k < |p| ensures LowerChar(p[k]) == p[k] {
        if k > 0 { assert p[k] == command[k - 1]; }
      }
    }
    ToLowerPrefix(body, p);
    assert body == "!" + command + " " + ("help" + [' '] + x);
    assert StripPrefix(body, "!", command) == "help" + [' '] + x;
    GetContentOneLine("help" + [' '] + x);
    SplitWordThenWord("help", x, ' ');
  }

  /** The prefix test ignores case but the strip does not. A first word
      `w` that matches the command word only after lower-casing (as in
      `!Bestellung show`) passes the test, is not stripped, and so becomes
      the command looked up, which no handler registers. */
  lemma CaseMismatchIsUnknown(subs: SubHandlers, command: string, w: string, rest: string)
    requires IsLower(command) && ' ' !in w && ' ' !in rest
    requires '\n' !in w + rest && '\r' !in w + rest
    requires HasPrefix(ToLower(w), "!" + command) && !HasPrefix(w, "!" + command)
    requires ToLower(w) !in subs
    ensures Route(subs, DefaultCommandPrefix, command, Event(true, w + " " + rest)) == Reply(UnknownCommand("!" + command))
  {
    CaseMismatchWords(command, w, rest);
    assert ToLower(w)[0] == '!';
  }

  /** The message of `CaseMismatchIsUnknown` passes the prefix test and
      keeps its first word unstripped. */
  lemma CaseMismatchWords(command: string, w: string, rest: string)
    requires ' ' !in w && ' ' !in rest
    requires '\n' !in w + rest && '\r' !in w + rest
    requires HasPrefix(ToLower(w), "!" + command) && !HasPrefix(w, "!" + command)
    ensures IsMessageWithPrefix(Event(true, w + " " + rest), DefaultCommandPrefix, command)
    ensures StripPrefixAndGetContent(w + " " + rest, DefaultCommandPrefix, command) == Ok([w, rest])
  {
    var body := w + " " + rest;
    assert HasPrefix(ToLower(body), "!" + command) by {
      ToLowerAppend(w, " " + rest);
    }
    assert StripPrefix(body, "!", command) == body by {
      NotStripped(command, w, rest);
    }
    assert body == w + [' '] + rest;
    assert forall c :: c in body ==> c in w + rest || c == ' ';
    GetContentOneLine(body);
    SplitWordThenWord(w, rest, ' ');
  }

  /** A first word that is not `!<command>` itself keeps the message from
      starting with `!<command> `. */
  lemma NotStripped(command: string, w: string, rest: string)
    requires ' ' !in w
    requires |w| >= |command| + 1 && !HasPrefix(w, "!" + command)
    ensures !HasPrefix(w + " " + rest, "!" + command + " ")
  {
    var p := "!" + command;
    var body := w + " " + rest;
    if |w| == |p| {
      assert body[..|p|] == w != p;
    } else {
      assert body[|p|] == w[|p|] != ' ';
    }
  }

  /** Lower-casing a message that starts with a lower-case `p` keeps `p` in
      front. */
  lemma ToLowerPrefix(s: string, p: string)
    requires HasPrefix(s, p) && IsLower(p)
    ensures HasPrefix(ToLower(s), p)
  {
    assert forall k :: 0 <= k < |p| ==> ToLower(s)[k] == LowerChar(s[k]) == LowerChar(p[k]) == p[k];
  }

  /** Splitting `a + [sep] + b` with no separator in either part gives the
      two parts. */
  lemma {:induction false} SplitWordThenWord(a: string, b: string, sep: char)
    requires sep !in a && sep !in b
    ensures Split(a + [sep] + b, sep) == [a, b]
  {
    if a == [] {
      assert [sep] + b == [sep] + b;
      SplitWord(b, sep);
      assert (a + [sep] + b)[1..] == b;
    } else {
      assert (a + [sep] + b)[1..] == a[1..] + [sep] + b;
      SplitWordThenWord(a[1..], b, sep);
      assert [a[0]] + a[1..] == a;
    }
  }

  /** A word with no separator splits into itself. */
  lemma {:induction false} SplitWord(a: string, sep: char)
    requires sep !in a
    ensures Split(a, sep) == [a]
  {
    if a != [] {
      SplitWord(a[1..], sep);
      assert [a[0]] + a[1..] == a;
    }
  }

  /** How binding arguments ends: refused with an error text, the first
      `count` variables assigned, or (in the code as written) an index past
      the last variable. */
  datatype Binding = Refused(msg: string) | Bound(count: nat) | IndexOutOfRange

  /** The two checks of `SplitAnswer`, in the order the code makes them. */
  function BindChecks(nwords: nat, required: nat, optional: nat, nvars: nat): Option<string>
  {
    if nvars < required + optional then Some("variable Count is smaller than total word count")
    else if nwords < required then Some("too less required Variables")
    else None
  }

  /** `SplitAnswer` as written: the assignment loop runs to `len(words)`
      whatever the number of variables, so more words than variables index
      past the last variable. */
  function BindAsWritten(nwords: nat, required: nat, optional: nat, nvars: nat): (b: Binding)
    ensures b.Refused? <==> BindChecks(nwords, required, optional, nvars).Some?
  {
    match BindChecks(nwords, required, optional, nvars)
    case Some(e) => Refused(e)
    case None => if nwords > nvars then IndexOutOfRange else Bound(nwords)
  }

  /** `SplitAnswer` as evidently intended: the loop bound is lowered to the
      number of variables when there are more words. */
  function Bind(nwords: nat, required: nat, optional: nat, nvars: nat): (b: Binding)
    ensures b.Refused? <==> BindChecks(nwords, required, optional, nvars).Some?
    ensures b.Bound? ==> b.count <= nvars && b.count <= nwords && (b.count == nwords || b.count == nvars)
    ensures !b.IndexOutOfRange?
  {
    match BindChecks(nwords, required, optional, nvars)
    case Some(e) => Refused(e)
    case None => Bound(if nwords > nvars then nvars else nwords)
  }

  /** The variables after binding `count` words: the first `count` hold the
      lower-cased words, the others keep their values. */
  function Assigned(vars: seq<string>, words: seq<string>, count: nat): (r: seq<string>)
    requires count <= |vars| && count <= |words|
    ensures |r| == |vars|
    ensures forall i :: 0 <= i < count ==> r[i] == ToLower(words[i])
    ensures forall i :: count <= i < |vars| ==> r[i] == vars[i]
  {
    seq(|vars|, i requires 0 <= i < |vars| => if i < count then ToLower(words[i]) else vars[i])
  }

  /** What a handler's variables hold after `SplitAnswer` (corrected loop
      bound) has bound `words` to `n` variables that all start empty: the
      first error of the checks, or the lower-cased words in order, with the
      variables past the last word left empty. */
  function Bindings(words: seq<string>, required: nat, optional: nat, n: nat): (r: Result<seq<string>>)
    ensures r.Err? <==> BindChecks(|words|, required, optional, n).Some?
    ensures r.Err? ==> r.msg == BindChecks(|words|, required, optional, n).value
    ensures r.Ok? ==> |r.value| == n
    ensures r.Ok? ==> forall i :: 0 <= i < n ==> r.value[i] == (if i < |words| then ToLower(words[i]) else "")
  {
    match BindChecks(|words|, required, optional, n)
    case Some(e) => Err(e)
    case None => Ok(Assigned(seq(n, _ => ""), words, Bind(|words|, required, optional, n).count))
  }

  /** `SplitAnswer` (corrected loop bound): checks the counts in order, then
      writes the lower-cased words through the variables. */
  method SplitAnswer(words: seq<string>, required: nat, optional: nat, vars: array<string>) returns (err: Option<string>)
    modifies vars
    ensures err == BindChecks(|words|, required, optional, vars.Length)
    ensures err.Some? ==> vars[..] == old(vars[..])
    ensures err.None? ==> Bind(|words|, required, optional, vars.Length).Bound?
    ensures err.None? ==> vars[..] == Assigned(old(vars[..]), words, Bind(|words|, required, optional, vars.Length).count)
  {
    var total := required + optional;
    if vars.Length < total {
      return Some("variable Count is smaller than total word count");
    }
    if |words| < required {
      return Some("too less required Variables");
    }
    var end := |words|;
    if vars.Length < |words| {
      end := vars.Length;
    }
    var i := 0;
    while i < end
      invariant 0 <= i <= end
      invariant forall k :: 0 <= k < i ==> vars[k] == ToLower(words[k])
      invariant forall k :: i <= k < vars.Length ==> vars[k] == old(vars[k])
    {
      vars[i] := ToLower(words[i]);
      i := i + 1;
    }
    err := None;
    assert vars[..] == Assigned(old(vars[..]), words, end);
  }

  /** `SplitAnswer` exactly as written. `crashed` is the run-time panic of
      `*vars[i]` with `i == len(vars)`; by then every variable has been
      assigned. */
  method SplitAnswerAsWritten(words: seq<string>, required: nat, optional: nat, vars: array<string>)
    returns (err: Option<string>, crashed: bool)
    modifies vars
    ensures err == BindChecks(|words|, required, optional, vars.Length)
    ensures crashed <==> BindAsWritten(|words|, required, optional, vars.Length) == IndexOutOfRange
    ensures err.Some? ==> vars[..] == old(vars[..])
    ensures err.None? ==> vars[..] == Assigned(old(vars[..]), words, if crashed then vars.Length else |words|)
  {
    var total := required + optional;
    if vars.Length < total {
      return Some("variable Count is smaller than total word count"), false;
    }
    if |words| < required {
      return Some("too less required Variables"), false;
    }
    var end := |words|;
    var i := 0;
    crashed := false;
    while i < end && !crashed
      invariant 0 <= i <= end && i <= vars.Length
      invariant crashed ==> i == vars.Length && i < end
      invariant forall k :: 0 <= k < i ==> vars[k] == ToLower(words[k])
      invariant forall k :: i <= k < vars.Length ==> vars[k] == old(vars[k])
      decreases end - i, if crashed then 0 else 1
    {
      if i >= vars.Length {
        crashed := true;
      } else {
        vars[i] := ToLower(words[i]);
        i := i + 1;
      }
    }
    err := None;
    assert vars[..] == Assigned(old(vars[..]), words, i);
  }

  /** Wherever the code as written does not crash it agrees with the
      corrected binding. */
  lemma BindAgreesBelowOverflow(nwords: nat, required: nat, optional: nat, nvars: nat)
    requires BindAsWritten(nwords, required, optional, nvars) != IndexOutOfRange
    ensures Bind(nwords, required, optional, nvars) == BindAsWritten(nwords, required, optional, nvars)
  {
  }

  /** `!bestellung new pizza hawaii` reaches `newOrder` with two words for
      its one variable (`NV` 1, `OV` 0): the code as written indexes past
      the variable, the corrected binding takes the first word. */
  lemma NewOrderWithTwoWordsOverflows()
    ensures BindAsWritten(2, 1, 0, 1) == IndexOutOfRange
    ensures Bind(2, 1, 0, 1) == Bound(1)
  {
  }
}
