/** The session side of the client: the pending-command queue, and the send
    step that finishes AUTH with the daemon stamp the server announced. */
module Session {
  import opened Digests
  import Protocol
  import opened Encoder

  /** The escaping maps different arguments to different text. Only ever a
      hypothesis: the escaping routine is not part of this model. */
  ghost predicate Injective(escape: string -> string) {
    forall s, t :: escape(s) == escape(t) ==> s == t
  }

  /** The second AUTH field: the lowercase hex of MD5 over the daemon stamp
      immediately followed (no separator) by the password as REGISTER would
      send it. */
  function AuthResponse(a: AuthFields, daemonStamp: string, md5: string -> Digest): (h: string)
    ensures |h| == 32 && IsLowerHex(h)
    ensures Unhex(h) == md5(daemonStamp + Password(a.needMd5, a.passwd, md5))
  {
    var digest := md5(daemonStamp + Password(a.needMd5, a.passwd, md5));
    UnhexHex(digest);
    Hex(digest)
  }

  /** The line `request_command` hands to the transport: the stored line
      verbatim, or for AUTH the line built now from the daemon stamp. */
  function Resolve(c: Cmd, daemonStamp: string, p: Primitives): (line: string)
    ensures c.Eager? ==> line == c.data
    ensures c.Deferred? ==>
      line == Protocol.Compose(Protocol.Auth,
                               [p.escape(c.auth.user), p.escape(AuthResponse(c.auth, daemonStamp, p.md5))])
  {
    match c
    case Eager(_, data) => data
    case Deferred(a) =>
      var fields := [p.escape(a.user), p.escape(AuthResponse(a, daemonStamp, p.md5))];
      Protocol.ComposeSpelled(Protocol.Auth, fields);
      assert "auth " == Protocol.Verb(Protocol.Auth) + " ";
      "auth " + p.escape(a.user) + " " + p.escape(AuthResponse(a, daemonStamp, p.md5)) + "\n"
  }

  /** The AUTH line reads back as `auth`, the escaped user and the escaped
      32-digit response, when escaping never emits a delimiter. */
  lemma AuthTokens(a: AuthFields, daemonStamp: string, p: Primitives)
    requires DelimiterFree(p.escape)
    ensures Protocol.ParseLine(Resolve(Deferred(a), daemonStamp, p))
         == Protocol.Some(["auth", p.escape(a.user), p.escape(AuthResponse(a, daemonStamp, p.md5))])
  {
    var fields := [p.escape(a.user), p.escape(AuthResponse(a, daemonStamp, p.md5))];
    Protocol.ParseCompose(Protocol.Auth, fields);
    assert [Protocol.Verb(Protocol.Auth)] + fields
        == ["auth", p.escape(a.user), p.escape(AuthResponse(a, daemonStamp, p.md5))];
  }

  /** A command built eagerly sends the line it was built with, whatever the
      daemon stamp. */
  lemma EagerIgnoresStamp(c: Command, p: Primitives, s: string, t: string)
    requires !c.Auth?
    ensures Resolve(Build(c, p), s, p) == Resolve(Build(c, p), t, p) == Line(c, p)
  {
  }

  /** The AUTH response binds the daemon stamp: two stamps give the same AUTH
      line only if MD5 collides on stamp + password for them. So a captured
      AUTH line is refused under a new stamp unless MD5 collides. */
  lemma AuthStampBinding(a: AuthFields, s: string, t: string, p: Primitives)
    requires Injective(p.escape)
    ensures var secret := Password(a.needMd5, a.passwd, p.md5);
      Resolve(Deferred(a), s, p) == Resolve(Deferred(a), t, p) ==> p.md5(s + secret) == p.md5(t + secret)
  {
    var secret := Password(a.needMd5, a.passwd, p.md5);
    var ls, lt := Resolve(Deferred(a), s, p), Resolve(Deferred(a), t, p);
    if ls == lt {
      var prefix := "auth " + p.escape(a.user) + " ";
      var hs, ht := AuthResponse(a, s, p.md5), AuthResponse(a, t, p.md5);
      var es, et := p.escape(hs), p.escape(ht);
      assert ls == prefix + es + "\n";
      assert lt == prefix + et + "\n";
      assert ls[|prefix|..|ls| - 1] == es;
      assert lt[|prefix|..|lt| - 1] == et;
      assert hs == ht;
    }
  }

  /** The client object: the pending commands in send order, and the daemon
      stamp that the reply parser records from the server greeting. */
  class StarDictClient {
    var cmdlist: seq<Cmd>
    var daemonStamp: string

    constructor ()
      ensures cmdlist == [] && daemonStamp == ""
    {
      cmdlist := [];
      daemonStamp := "";
    }

    /** Queues a command behind the ones already waiting. */
    method AppendCommand(c: Cmd)
      modifies this`cmdlist
      ensures cmdlist == old(cmdlist) + [c]
    {
      cmdlist := cmdlist + [c];
    }

    /** Writes the command's line with `netWrite` and reports whether the
        write succeeded. AUTH is finished here: the password is hashed first
        when `needMd5` is set, then MD5 runs over the stamp and that secret. */
    method RequestCommand(c: Cmd, p: Primitives, netWrite: string -> bool) returns (ok: bool)
      ensures ok == netWrite(Resolve(c, daemonStamp, p))
    {
      match c {
        case Eager(_, data) =>
          ok := netWrite(data);
        case Deferred(a) =>
          var secret := a.passwd;
          if a.needMd5 {
            secret := HexDigest(p.md5(a.passwd));
          }
          var response := HexDigest(p.md5(daemonStamp + secret));
          var data := "auth " + p.escape(a.user) + " " + p.escape(response) + "\n";
          ok := netWrite(data);
      }
    }

    /** Drops every pending command. */
    method CleanCommand()
      modifies this`cmdlist
      ensures cmdlist == []
    {
      cmdlist := [];
    }
  }
}
