/** The command encoder: what `STARDICT::Cmd::Cmd` builds for each kind of
    command. MD5 and argument escaping are not defined here; they are the
    fields of `Primitives`, and every property holds for each choice of them. */
module Encoder {
  import opened Digests
  import Protocol

  /** The two helpers the encoder calls but does not define: MD5 on the
      bytes of a string, and the argument escaping routine. */
  datatype Primitives = Primitives(md5: string -> Digest, escape: string -> string)

  /** The escaping never outputs a space or a newline. Only ever a
      hypothesis: the escaping routine is not part of this model. */
  ghost predicate DelimiterFree(escape: string -> string) {
    forall s :: Protocol.NoDelimiter(escape(s))
  }

  /** The intent behind each kind of command, with exactly its fields. */
  datatype Command =
    | Client(protocolVersion: string, clientName: string)
    | Register(needMd5: bool, user: string, passwd: string, email: string)
    | ChangePasswd(needMd5: bool, user: string, oldPasswd: string, newPasswd: string)
    | Auth(needMd5: bool, user: string, passwd: string)
    | Lookup(word: string)
    | Previous(word: string)
    | Next(word: string)
    | Query(word: string)
    | SelectQuery(word: string)
    | Define(word: string)
    | SetDictMask(dictMask: string)
    | GetDictMask
    | SetCollateFunc(collateFunc: string)
    | GetCollateFunc
    | SetLanguage(language: string)
    | GetLanguage
    | SetEmail(email: string)
    | GetEmail
    | GetUserLevel
    | MaxDictCount
    | DirInfo(path: string)
    | DictInfo(dictName: string)
    | UserLevel(first: string, second: string, third: string)
    | Quit

  /** The AUTH fields kept raw until the daemon stamp is known. */
  datatype AuthFields = AuthFields(needMd5: bool, user: string, passwd: string)

  /** A constructed command object: a finished line for every kind but AUTH,
      whose fields wait for the send. */
  datatype Cmd =
    | Eager(command: Protocol.Kind, data: string)
    | Deferred(auth: AuthFields)
  {
    function Kind(): Protocol.Kind {
      if Eager? then command else Protocol.Auth
    }
  }

  /** The `command` tag the constructor records; only AUTH has the AUTH tag. */
  function KindOf(c: Command): (k: Protocol.Kind)
    ensures k == Protocol.Auth <==> c.Auth?
  {
    match c
    case Client(_, _) => Protocol.Client
    case Register(_, _, _, _) => Protocol.Register
    case ChangePasswd(_, _, _, _) => Protocol.ChangePasswd
    case Auth(_, _, _) => Protocol.Auth
    case Lookup(_) => Protocol.Lookup
    case Previous(_) => Protocol.Previous
    case Next(_) => Protocol.Next
    case Query(_) => Protocol.Query
    case SelectQuery(_) => Protocol.SelectQuery
    case Define(_) => Protocol.Define
    case SetDictMask(_) => Protocol.SetDictMask
    case GetDictMask => Protocol.GetDictMask
    case SetCollateFunc(_) => Protocol.SetCollateFunc
    case GetCollateFunc => Protocol.GetCollateFunc
    case SetLanguage(_) => Protocol.SetLanguage
    case GetLanguage => Protocol.GetLanguage
    case SetEmail(_) => Protocol.SetEmail
    case GetEmail => Protocol.GetEmail
    case GetUserLevel => Protocol.GetUserLevel
    case MaxDictCount => Protocol.MaxDictCount
    case DirInfo(_) => Protocol.DirInfo
    case DictInfo(_) => Protocol.DictInfo
    case UserLevel(_, _, _) => Protocol.UserLevel
    case Quit => Protocol.Quit
  }

  /** The password as sent: the lowercase hex of its MD5 digest when
      `needMd5` is set, the plaintext otherwise. */
  function Password(needMd5: bool, passwd: string, md5: string -> Digest): (r: string)
    ensures needMd5 ==> |r| == 32 && IsLowerHex(r) && Unhex(r) == md5(passwd)
    ensures !needMd5 ==> r == passwd
  {
    if needMd5 then
      UnhexHex(md5(passwd));
      Hex(md5(passwd))
    else passwd
  }

  /** The arguments of each kind in wire order, before escaping: the
      reference table the built lines are checked against. */
  function WireArgs(c: Command, md5: string -> Digest): (args: seq<string>)
    requires !c.Auth?
    ensures |args| == Protocol.Arity(KindOf(c))
  {
    match c
    case Client(version, name) => [version, name]
    case Register(needMd5, user, passwd, email) => [user, Password(needMd5, passwd, md5), email]
    case ChangePasswd(needMd5, user, oldPasswd, newPasswd) =>
      [user, oldPasswd, Password(needMd5, newPasswd, md5)]
    case Lookup(w) => [w]
    case Previous(w) => [w]
    case Next(w) => [w]
    case Query(w) => [w]
    case SelectQuery(w) => [w]
    case Define(w) => [w]
    case SetDictMask(m) => [m]
    case GetDictMask => []
    case SetCollateFunc(f) => [f]
    case GetCollateFunc => []
    case SetLanguage(l) => [l]
    case GetLanguage => []
    case SetEmail(e) => [e]
    case GetEmail => []
    case GetUserLevel => []
    case MaxDictCount => []
    case DirInfo(d) => [d]
    case DictInfo(d) => [d]
    case UserLevel(a, b, d) => [a, b, d]
    case Quit => []
  }

  function EscapeAll(args: seq<string>, escape: string -> string): (r: seq<string>)
    ensures |r| == |args|
    ensures forall i :: 0 <= i < |args| ==> r[i] == escape(args[i])
  {
    seq(|args|, i requires 0 <= i < |args| => escape(args[i]))
  }

  /** The line each kind's branch of the constructor formats. */
  function Line(c: Command, p: Primitives): (r: string)
    requires !c.Auth?
    ensures |r| > 0 && r[|r| - 1] == '\n'
  {
    var e := p.escape;
    match c
    case Client(version, name) => "client " + e(version) + " " + e(name) + "\n"
    case Register(needMd5, user, passwd, email) =>
      "register " + e(user) + " " + e(Password(needMd5, passwd, p.md5)) + " " + e(email) + "\n"
    case ChangePasswd(needMd5, user, oldPasswd, newPasswd) =>
      "change_password " + e(user) + " " + e(oldPasswd) + " "
        + e(Password(needMd5, newPasswd, p.md5)) + "\n"
    case Lookup(w) => "lookup " + e(w) + "\n"
    case Previous(w) => "previous " + e(w) + "\n"
    case Next(w) => "next " + e(w) + "\n"
    case Query(w) => "query " + e(w) + "\n"
    case SelectQuery(w) => "selectquery " + e(w) + "\n"
    case Define(w) => "define " + e(w) + "\n"
    case SetDictMask(m) => "setdictmask " + e(m) + "\n"
    case GetDictMask => "getdictmask\n"
    case SetCollateFunc(f) => "setcollatefunc " + e(f) + "\n"
    case GetCollateFunc => "getcollatefunc\n"
    case SetLanguage(l) => "setlanguage " + e(l) + "\n"
    case GetLanguage => "getlanguage\n"
    case SetEmail(m) => "setemail " + e(m) + "\n"
    case GetEmail => "getemail\n"
    case GetUserLevel => "getuserlevel\n"
    case MaxDictCount => "maxdictcount\n"
    case DirInfo(d) => "dirinfo " + e(d) + "\n"
    case DictInfo(d) => "dictinfo " + e(d) + "\n"
    case UserLevel(a, b, d) => "userlevel " + e(a) + " " + e(b) + " " + e(d) + "\n"
    case Quit => "quit\n"
  }

  /** LineComposed for the argument-free kinds. */
  lemma FixedLineComposed(c: Command, p: Primitives)
    requires !c.Auth? && Protocol.Arity(KindOf(c)) == 0
    ensures Line(c, p) == Protocol.Compose(KindOf(c), EscapeAll(WireArgs(c, p.md5), p.escape))
  {
    Protocol.ComposeSpelled(KindOf(c), EscapeAll(WireArgs(c, p.md5), p.escape));
  }

  /** LineComposed for the single-argument kinds. */
  lemma SingleLineComposed(c: Command, p: Primitives)
    requires !c.Auth? && Protocol.Arity(KindOf(c)) == 1
    ensures Line(c, p) == Protocol.Compose(KindOf(c), EscapeAll(WireArgs(c, p.md5), p.escape))
  {
    Protocol.ComposeSpelled(KindOf(c), EscapeAll(WireArgs(c, p.md5), p.escape));
    match c
    case Lookup(_) => assert "lookup " == Protocol.Verb(Protocol.Lookup) + " ";
    case Previous(_) => assert "previous " == Protocol.Verb(Protocol.Previous) + " ";
    case Next(_) => assert "next " == Protocol.Verb(Protocol.Next) + " ";
    case Query(_) => assert "query " == Protocol.Verb(Protocol.Query) + " ";
    case SelectQuery(_) => assert "selectquery " == Protocol.Verb(Protocol.SelectQuery) + " ";
    case Define(_) => assert "define " == Protocol.Verb(Protocol.Define) + " ";
    case SetDictMask(_) => assert "setdictmask " == Protocol.Verb(Protocol.SetDictMask) + " ";
    case SetCollateFunc(_) => assert "setcollatefunc " == Protocol.Verb(Protocol.SetCollateFunc) + " ";
    case SetLanguage(_) => assert "setlanguage " == Protocol.Verb(Protocol.SetLanguage) + " ";
    case SetEmail(_) => assert "setemail " == Protocol.Verb(Protocol.SetEmail) + " ";
    case DirInfo(_) => assert "dirinfo " == Protocol.Verb(Protocol.DirInfo) + " ";
    case DictInfo(_) => assert "dictinfo " == Protocol.Verb(Protocol.DictInfo) + " ";
  }

  /** LineComposed for the kinds with two or three arguments. */
  lemma MultiLineComposed(c: Command, p: Primitives)
    requires !c.Auth? && Protocol.Arity(KindOf(c)) > 1
    ensures Line(c, p) == Protocol.Compose(KindOf(c), EscapeAll(WireArgs(c, p.md5), p.escape))
  {
    Protocol.ComposeSpelled(KindOf(c), EscapeAll(WireArgs(c, p.md5), p.escape));
    match c
    case Client(_, _) => assert "client " == Protocol.Verb(Protocol.Client) + " ";
    case Register(_, _, _, _) => assert "register " == Protocol.Verb(Protocol.Register) + " ";
    case ChangePasswd(_, _, _, _) => assert "change_password " == Protocol.Verb(Protocol.ChangePasswd) + " ";
    case UserLevel(_, _, _) => assert "userlevel " == Protocol.Verb(Protocol.UserLevel) + " ";
  }

  /** Each branch of the constructor formats exactly the kind's verb and its
      escaped wire arguments. */
  lemma LineComposed(c: Command, p: Primitives)
    requires !c.Auth?
    ensures Line(c, p) == Protocol.Compose(KindOf(c), EscapeAll(WireArgs(c, p.md5), p.escape))
  {
    var n := Protocol.Arity(KindOf(c));
    if n == 0 {
      FixedLineComposed(c, p);
    } else if n == 1 {
      SingleLineComposed(c, p);
    } else {
      MultiLineComposed(c, p);
    }
  }

  /** `Cmd::Cmd`: every kind but AUTH gets its line now; AUTH keeps its raw
      fields. */
  function Build(c: Command, p: Primitives): (r: Cmd)
    ensures r.Kind() == KindOf(c)
    ensures r.Deferred? <==> c.Auth?
    ensures r.Eager? ==> r.data == Line(c, p)
    ensures r.Deferred? ==> r.auth == AuthFields(c.needMd5, c.user, c.passwd)
  {
    if c.Auth? then Deferred(AuthFields(c.needMd5, c.user, c.passwd))
    else Eager(KindOf(c), Line(c, p))
  }

  /** Building AUTH computes nothing: neither MD5 nor escaping is consulted. */
  lemma AuthDeferred(c: Command, p: Primitives, q: Primitives)
    requires c.Auth?
    ensures Build(c, p) == Build(c, q) == Deferred(AuthFields(c.needMd5, c.user, c.passwd))
  {
  }

  /** Every built line reads back as the kind's verb, then exactly its
      escaped arguments, when escaping never emits a delimiter. */
  lemma LineTokens(c: Command, p: Primitives)
    requires !c.Auth?
    requires DelimiterFree(p.escape)
    ensures Protocol.ParseLine(Line(c, p)) == Protocol.Some([Protocol.Verb(KindOf(c))] + EscapeAll(WireArgs(c, p.md5), p.escape))
    ensures Protocol.KindOfVerb(Protocol.ParseLine(Line(c, p)).value[0]) == Protocol.Some(KindOf(c))
    ensures |Protocol.ParseLine(Line(c, p)).value| == 1 + Protocol.Arity(KindOf(c))
  {
    var args := EscapeAll(WireArgs(c, p.md5), p.escape);
    LineComposed(c, p);
    Protocol.ParseCompose(KindOf(c), args);
    Protocol.VerbRoundTrip(KindOf(c));
  }

  /** The argument-free kinds send one fixed line, whatever MD5 and the
      escaping do. */
  lemma ArgumentFreeLines(c: Command, p: Primitives, q: Primitives)
    requires !c.Auth? && Protocol.Arity(KindOf(c)) == 0
    ensures Line(c, p) == Line(c, q) == Protocol.Verb(KindOf(c)) + "\n"
    ensures c.GetDictMask? ==> Line(c, p) == "getdictmask\n"
    ensures c.Quit? ==> Line(c, p) == "quit\n"
  {
    LineComposed(c, p);
    LineComposed(c, q);
    Protocol.ComposeSpelled(KindOf(c), []);
  }

  /** A single-argument kind sends its verb, one space, its escaped argument
      and a newline; the argument is never hashed. */
  lemma SingleArgumentLines(c: Command, p: Primitives, md5: string -> Digest)
    requires !c.Auth? && Protocol.Arity(KindOf(c)) == 1
    ensures WireArgs(c, md5) == WireArgs(c, p.md5)
    ensures Line(c, p) == Protocol.Verb(KindOf(c)) + " " + p.escape(WireArgs(c, p.md5)[0]) + "\n"
  {
    var args := EscapeAll(WireArgs(c, p.md5), p.escape);
    LineComposed(c, p);
    Protocol.ComposeSpelled(KindOf(c), args);
  }

  /** REGISTER sends the user, the password (or its MD5 hex) and the email, in
      that order; only the password field depends on `needMd5`. */
  lemma RegisterLine(needMd5: bool, user: string, passwd: string, email: string, p: Primitives)
    requires DelimiterFree(p.escape)
    ensures Protocol.ParseLine(Line(Register(needMd5, user, passwd, email), p))
         == Protocol.Some(["register", p.escape(user),
                           p.escape(Password(needMd5, passwd, p.md5)), p.escape(email)])
  {
    var c := Register(needMd5, user, passwd, email);
    LineTokens(c, p);
    assert EscapeAll(WireArgs(c, p.md5), p.escape)
        == [p.escape(user), p.escape(Password(needMd5, passwd, p.md5)), p.escape(email)];
    assert [Protocol.Verb(Protocol.Register)] + EscapeAll(WireArgs(c, p.md5), p.escape)
        == ["register", p.escape(user), p.escape(Password(needMd5, passwd, p.md5)), p.escape(email)];
  }

  /** CHANGE_PASSWD sends the user, the old password as given and the new
      password (or its MD5 hex); the old password is never hashed. */
  lemma ChangePasswdLine(needMd5: bool, user: string, oldPasswd: string, newPasswd: string, p: Primitives)
    requires DelimiterFree(p.escape)
    ensures Protocol.ParseLine(Line(ChangePasswd(needMd5, user, oldPasswd, newPasswd), p))
         == Protocol.Some(["change_password", p.escape(user), p.escape(oldPasswd),
                           p.escape(Password(needMd5, newPasswd, p.md5))])
  {
    var c := ChangePasswd(needMd5, user, oldPasswd, newPasswd);
    LineTokens(c, p);
    assert EscapeAll(WireArgs(c, p.md5), p.escape)
        == [p.escape(user), p.escape(oldPasswd), p.escape(Password(needMd5, newPasswd, p.md5))];
    assert [Protocol.Verb(Protocol.ChangePasswd)] + EscapeAll(WireArgs(c, p.md5), p.escape)
        == ["change_password", p.escape(user), p.escape(oldPasswd), p.escape(Password(needMd5, newPasswd, p.md5))];
  }
}
