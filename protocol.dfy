/** The wire grammar of a StarDict client command: one lowercase verb,
    followed by the escaped arguments, each after one space, and a final
    newline. */
module Protocol {

  datatype Option<T> = None | Some(value: T)

  /** The command kinds the client can send (the `CMD_*` tags). */
  datatype Kind =
    | Client | Register | ChangePasswd | Auth
    | Lookup | Previous | Next | Query | SelectQuery | Define
    | SetDictMask | GetDictMask | SetCollateFunc | GetCollateFunc
    | SetLanguage | GetLanguage | SetEmail | GetEmail
    | GetUserLevel | MaxDictCount | DirInfo | DictInfo | UserLevel | Quit

  predicate IsVerbChar(c: char) {
    'a' <= c <= 'z' || c == '_'
  }

  /** The fixed verb that opens the line of each kind. */
  function Verb(k: Kind): (v: string)
    ensures |v| > 0
    ensures forall ch | ch in v :: IsVerbChar(ch)
  {
    match k
    case Client => "client"
    case Register => "register"
    case ChangePasswd => "change_password"
    case Auth => "auth"
    case Lookup => "lookup"
    case Previous => "previous"
    case Next => "next"
    case Query => "query"
    case SelectQuery => "selectquery"
    case Define => "define"
    case SetDictMask => "setdictmask"
    case GetDictMask => "getdictmask"
    case SetCollateFunc => "setcollatefunc"
    case GetCollateFunc => "getcollatefunc"
    case SetLanguage => "setlanguage"
    case GetLanguage => "getlanguage"
    case SetEmail => "setemail"
    case GetEmail => "getemail"
    case GetUserLevel => "getuserlevel"
    case MaxDictCount => "maxdictcount"
    case DirInfo => "dirinfo"
    case DictInfo => "dictinfo"
    case UserLevel => "userlevel"
    case Quit => "quit"
  }

  /** How many arguments follow the verb. */
  function Arity(k: Kind): nat {
    match k
    case Client | Auth => 2
    case Register | ChangePasswd | UserLevel => 3
    case GetDictMask | GetCollateFunc | GetLanguage | GetEmail
      | GetUserLevel | MaxDictCount | Quit => 0
    case _ => 1
  }

  /** The kind a verb names, if any. The test on the length comes first only
      to keep the proof of VerbRoundTrip cheap: it spares the solver most
      comparisons between string literals. */
  function KindOfVerb(v: string): Option<Kind> {
    if |v| == 4 then
      if v == "auth" then Some(Auth)
      else if v == "next" then Some(Next)
      else if v == "quit" then Some(Quit)
      else None
    else if |v| == 5 then
      if v == "query" then Some(Query)
      else None
    else if |v| == 6 then
      if v == "client" then Some(Client)
      else if v == "lookup" then Some(Lookup)
      else if v == "define" then Some(Define)
      else None
    else if |v| == 7 then
      if v == "dirinfo" then Some(DirInfo)
      else None
    else if |v| == 8 then
      if v == "register" then Some(Register)
      else if v == "previous" then Some(Previous)
      else if v == "setemail" then Some(SetEmail)
      else if v == "getemail" then Some(GetEmail)
      else if v == "dictinfo" then Some(DictInfo)
      else None
    else if |v| == 9 then
      if v == "userlevel" then Some(UserLevel)
      else None
    else if |v| == 11 then
      if v == "selectquery" then Some(SelectQuery)
      else if v == "setdictmask" then Some(SetDictMask)
      else if v == "getdictmask" then Some(GetDictMask)
      else if v == "setlanguage" then Some(SetLanguage)
      else if v == "getlanguage" then Some(GetLanguage)
      else None
    else if |v| == 12 then
      if v == "getuserlevel" then Some(GetUserLevel)
      else if v == "maxdictcount" then Some(MaxDictCount)
      else None
    else if |v| == 14 then
      if v == "setcollatefunc" then Some(SetCollateFunc)
      else if v == "getcollatefunc" then Some(GetCollateFunc)
      else None
    else if |v| == 15 then
      if v == "change_password" then Some(ChangePasswd)
      else None
    else None
  }

  /** Every verb names its own kind back. */
  lemma VerbRoundTrip(k: Kind)
    ensures KindOfVerb(Verb(k)) == Some(k)
  {
    match k
    case Client =>
    case Register =>
    case ChangePasswd =>
    case Auth =>
    case Lookup =>
    case Previous =>
    case Next =>
    case Query =>
    case SelectQuery =>
    case Define =>
    case SetDictMask =>
    case GetDictMask =>
    case SetCollateFunc =>
    case GetCollateFunc =>
    case SetLanguage =>
    case GetLanguage =>
    case SetEmail =>
    case GetEmail =>
    case GetUserLevel =>
    case MaxDictCount =>
    case DirInfo =>
    case DictInfo =>
    case UserLevel =>
    case Quit =>
  }

  /** No two kinds share a verb. */
  lemma VerbsDistinct(j: Kind, k: Kind)
    requires Verb(j) == Verb(k)
    ensures j == k
  {
    VerbRoundTrip(j);
    VerbRoundTrip(k);
  }

  /** Words joined by single spaces. */
  function Unwords(ws: seq<string>): string
    requires |ws| >= 1
  {
    if |ws| == 1 then ws[0] else ws[0] + " " + Unwords(ws[1..])
  }

  /** The full line for a kind and its already escaped arguments. */
  function Compose(k: Kind, args: seq<string>): string {
    Unwords([Verb(k)] + args) + "\n"
  }

  /** The composed line spelled out for up to three arguments. */
  lemma ComposeSpelled(k: Kind, args: seq<string>)
    ensures |args| == 0 ==> Compose(k, args) == Verb(k) + "\n"
    ensures |args| == 1 ==> Compose(k, args) == Verb(k) + " " + args[0] + "\n"
    ensures |args| == 2 ==> Compose(k, args) == Verb(k) + " " + args[0] + " " + args[1] + "\n"
    ensures |args| == 3 ==>
      Compose(k, args) == Verb(k) + " " + args[0] + " " + args[1] + " " + args[2] + "\n"
  {
    var v, ws := Verb(k), [Verb(k)] + args;
    if |args| == 1 {
      assert ws[1..] == args;
      assert Unwords(ws) == v + " " + args[0];
    } else if |args| == 2 {
      assert ws[1..] == args && args[1..] == [args[1]];
      assert Unwords(args) == args[0] + " " + args[1];
      assert Unwords(ws) == v + " " + (args[0] + " " + args[1]);
      assert v + " " + (args[0] + " " + args[1]) == v + " " + args[0] + " " + args[1];
    } else if |args| == 3 {
      assert ws[1..] == args && args[1..][1..] == [args[2]];
      var tail := args[1] + " " + args[2];
      assert Unwords(args[1..]) == tail;
      assert Unwords(args) == args[0] + " " + tail;
      assert Unwords(ws) == v + " " + (args[0] + " " + tail);
      assert v + " " + (args[0] + " " + tail) == v + " " + args[0] + " " + args[1] + " " + args[2];
    }
  }

  /** Splits text at every space; empty words are kept. */
  function Split(s: string): (ws: seq<string>)
    ensures |ws| >= 1
  {
    if s == [] then [""]
    else
      var rest := Split(s[1..]);
      if s[0] == ' ' then [""] + rest else [[s[0]] + rest[0]] + rest[1..]
  }

  /** The words of one newline-terminated line, or None if the text is not
      exactly one line. */
  function ParseLine(line: string): Option<seq<string>> {
    if |line| >= 1 && line[|line| - 1] == '\n' && '\n' !in line[..|line| - 1]
    then Some(Split(line[..|line| - 1]))
    else None
  }

  predicate NoDelimiter(w: string) {
    ' ' !in w && '\n' !in w
  }

  lemma {:induction false} SplitWordThen(w: string, rest: string)
    requires ' ' !in w
    ensures Split(w + rest) == [w + Split(rest)[0]] + Split(rest)[1..]
  {
    if w == [] {
      assert w + rest == rest;
      assert w + Split(rest)[0] == Split(rest)[0];
      assert Split(rest) == [Split(rest)[0]] + Split(rest)[1..];
    } else {
      SplitWordThen(w[1..], rest);
      assert (w + rest)[1..] == w[1..] + rest;
      assert [w[0]] + (w[1..] + Split(rest)[0]) == w + Split(rest)[0];
    }
  }

  /** Splitting undoes joining, as long as no word holds a space. */
  lemma {:induction false} SplitUnwords(ws: seq<string>)
    requires |ws| >= 1
    requires forall i :: 0 <= i < |ws| ==> ' ' !in ws[i]
    ensures Split(Unwords(ws)) == ws
  {
    if |ws| == 1 {
      SplitWordThen(ws[0], "");
      assert ws[0] + "" == ws[0];
    } else {
      var tail := Unwords(ws[1..]);
      SplitUnwords(ws[1..]);
      assert ws[0] + " " + tail == ws[0] + (" " + tail);
      SplitWordThen(ws[0], " " + tail);
      assert (" " + tail)[0] == ' ' && (" " + tail)[1..] == tail;
      assert Split(" " + tail) == [""] + Split(tail);
      assert ws[0] + "" == ws[0];
      assert ws == [ws[0]] + ws[1..];
    }
  }

  lemma {:induction false} UnwordsNoNewline(ws: seq<string>)
    requires |ws| >= 1
    requires forall i :: 0 <= i < |ws| ==> '\n' !in ws[i]
    ensures '\n' !in Unwords(ws)
  {
    if |ws| > 1 {
      UnwordsNoNewline(ws[1..]);
    }
  }

  /** A composed line reads back as its verb followed by its arguments,
      provided no argument holds a space or a newline. */
  lemma ParseCompose(k: Kind, args: seq<string>)
    requires forall i :: 0 <= i < |args| ==> NoDelimiter(args[i])
    ensures ParseLine(Compose(k, args)) == Some([Verb(k)] + args)
  {
    var ws := [Verb(k)] + args;
    assert forall i :: 0 <= i < |ws| ==> NoDelimiter(ws[i]) by {
      forall i | 0 <= i < |ws| ensures NoDelimiter(ws[i]) {
        if i == 0 {
          assert ' ' !in Verb(k) && '\n' !in Verb(k);
        } else {
          assert ws[i] == args[i - 1];
        }
      }
    }
    SplitUnwords(ws);
    UnwordsNoNewline(ws);
    var line := Compose(k, args);
    assert line[..|line| - 1] == Unwords(ws);
  }
}
