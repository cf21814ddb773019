/**
 The prompter's four replies: what each parser accepts, and that each reads back what
 its printer wrote. `cap` stands for `kMaxSecretBytes`, which belongs to the agent
 library.
 */
module PrompterReplies {
  import opened Wrappers
  import opened PrompterCodec

  datatype Status = Ok_ | Cancelled | Error | Unauthorized | Timeout | OkMrz

  /** `version` is what the answering helper announced. */
  datatype SecretReply = SecretReply(status: Status, secret: seq<Byte>, message: string, version: Option<U32>)

  datatype PairReply = PairReply(status: Status, primary: seq<Byte>, secondary: seq<Byte>, message: string,
                                 version: Option<U32>)

  datatype ConfirmReply = ConfirmReply(status: Status, message: string, version: Option<U32>)

  datatype ResetDone = ResetDone(closed: U32)

  function StatusToken(s: Status): string {
    match s
    case Ok_ => "ok"
    case Cancelled => "cancelled"
    case Error => "error"
    case Unauthorized => "unauthorized"
    case Timeout => "timeout"
    case OkMrz => "ok_mrz"
  }

  function StatusFromToken(w: string): Option<Status> {
    if w == "ok" then Some(Ok_)
    else if w == "cancelled" then Some(Cancelled)
    else if w == "error" then Some(Error)
    else if w == "unauthorized" then Some(Unauthorized)
    else if w == "timeout" then Some(Timeout)
    else if w == "ok_mrz" then Some(OkMrz)
    else None
  }

  // ---- printing ---------------------------------------------------------------------------

  function StatusHeader(tag: string, s: Status): Fields {
    Put(Header(tag), PrompterCodec.Status, Some(Text(StatusToken(s))))
  }

  function Raw(b: seq<Byte>, present: bool): Option<Cbor> {
    if present then Some(Bytes(b)) else None
  }

  function PrintSecret(r: SecretReply): Fields {
    Put(Put(StatusHeader("Secret", r.status), Secret, Raw(r.secret, r.status.Ok_?)), UserMessage, Word(r.message))
  }

  function PrintPair(r: PairReply): Fields {
    var m := Put(StatusHeader("Secrets", r.status), Primary, Raw(r.primary, r.status.Ok_?));
    Put(Put(m, Secondary, Raw(r.secondary, r.status.Ok_?)), UserMessage, Word(r.message))
  }

  function PrintConfirm(r: ConfirmReply): Fields {
    Put(StatusHeader("Confirm", r.status), UserMessage, Word(r.message))
  }

  function PrintReset(r: ResetDone): Fields {
    Put(Header("ResetDone"), ClosedCount, Number(r.closed))
  }

  // ---- parsing ------------------------------------------------------------------------------

  /** A version too wide for the reply's field is unreadable, not narrowed. */
  function ReplyVersion(m: Fields): Result<Option<U32>, ParseError> {
    var v := Announced(Get(m, V));
    if v.Err? then Err(v.error)
    else if v.value.None? then Ok(None)
    else if v.value.value >= 0x1_0000_0000 then Err(WrongType)
    else Ok(Some(v.value.value))
  }

  function ReplyStatus(m: Fields): Result<Status, ParseError> {
    var c := Get(m, PrompterCodec.Status);
    if c.None? || !c.value.Text? then Err(MissingField)
    else
      var s := StatusFromToken(c.value.s);
      if s.None? then Err(BadEnum) else Ok(s.value)
  }

  function RequiredSecret(m: Fields, k: Key, cap: nat): Result<seq<Byte>, ParseError> {
    var c := Get(m, k);
    if c.None? || !c.value.Bytes? then Err(MissingField)
    else if |c.value.b| > cap then Err(SecretTooLarge)
    else Ok(c.value.b)
  }

  function ParseSecretReply(m: Fields, cap: nat): Result<SecretReply, ParseError> {
    var s, v := ReplyStatus(m), ReplyVersion(m);
    if s.Err? then Err(s.error)
    else if v.Err? then Err(v.error)
    else
      var secret := if s.value.Ok_? then RequiredSecret(m, Secret, cap) else Ok([]);
      var msg := OptText(Get(m, UserMessage));
      if secret.Err? then Err(secret.error)
      else if msg.None? then Err(WrongType)
      else Ok(SecretReply(s.value, secret.value, msg.value, v.value))
  }

  function ParsePairReply(m: Fields, cap: nat): Result<PairReply, ParseError> {
    var s, v := ReplyStatus(m), ReplyVersion(m);
    if s.Err? then Err(s.error)
    else if v.Err? then Err(v.error)
    else
      var a := if s.value.Ok_? then RequiredSecret(m, Primary, cap) else Ok([]);
      var b := if s.value.Ok_? then RequiredSecret(m, Secondary, cap) else Ok([]);
      var msg := OptText(Get(m, UserMessage));
      if a.Err? then Err(a.error)
      else if b.Err? then Err(b.error)
      else if msg.None? then Err(WrongType)
      else Ok(PairReply(s.value, a.value, b.value, msg.value, v.value))
  }

  /** A message carrying a secret is not a confirmation. */
  function ParseConfirmReply(m: Fields): Result<ConfirmReply, ParseError> {
    if Secret in m || Primary in m || Secondary in m then Err(UnknownMessage)
    else
      var s, msg, v := ReplyStatus(m), OptText(Get(m, UserMessage)), ReplyVersion(m);
      if s.Err? then Err(s.error)
      else if msg.None? then Err(WrongType)
      else if v.Err? then Err(v.error)
      else Ok(ConfirmReply(s.value, msg.value, v.value))
  }

  function ParseResetDone(m: Fields): Result<ResetDone, ParseError> {
    if T !in m || !m[T].Text? then Err(MissingField)
    else if m[T].s != "ResetDone" then Err(UnknownMessage)
    else
      var n := OptUInt(Get(m, ClosedCount));
      if n.None? then Err(WrongType) else Ok(ResetDone(Narrow(n.value)))
  }

  // ---- what they promise -----------------------------------------------------------------------

  /** What each reply says on the wire, key by key: a secret with an "ok" only, a message when
      there is one. */
  lemma SecretReplySays(r: SecretReply, j: Key)
    ensures Get(PrintSecret(r), j) ==
            match j case T => Some(Text("Secret")) case V => Some(UInt(2))
                    case Status => Some(Text(StatusToken(r.status)))
                    case Secret => (if r.status.Ok_? then Some(Bytes(r.secret)) else None)
                    case UserMessage => SaidText(r.message) case _ => None
  {
    var m := StatusHeader("Secret", r.status);
    PutGet(m, Secret, Raw(r.secret, r.status.Ok_?), j);
    PutGet(Put(m, Secret, Raw(r.secret, r.status.Ok_?)), UserMessage, Word(r.message), j);
  }

  lemma ConfirmReplySays(r: ConfirmReply, j: Key)
    ensures Get(PrintConfirm(r), j) ==
            match j case T => Some(Text("Confirm")) case V => Some(UInt(2))
                    case Status => Some(Text(StatusToken(r.status)))
                    case UserMessage => SaidText(r.message) case _ => None
  {
    PutGet(StatusHeader("Confirm", r.status), UserMessage, Word(r.message), j);
  }

  lemma ResetDoneSays(r: ResetDone, j: Key)
    ensures Get(PrintReset(r), j) ==
            match j case T => Some(Text("ResetDone")) case V => Some(UInt(2))
                    case ClosedCount => SaidNumber(r.closed) case _ => None
  {
    PutGet(Header("ResetDone"), ClosedCount, Number(r.closed), j);
  }

  lemma PairReplySays(r: PairReply, j: Key)
    ensures Get(PrintPair(r), j) ==
            match j case T => Some(Text("Secrets")) case V => Some(UInt(2))
                    case Status => Some(Text(StatusToken(r.status)))
                    case Primary => (if r.status.Ok_? then Some(Bytes(r.primary)) else None)
                    case Secondary => (if r.status.Ok_? then Some(Bytes(r.secondary)) else None)
                    case UserMessage => SaidText(r.message) case _ => None
  {
    var m := StatusHeader("Secrets", r.status);
    var n := Put(m, Primary, Raw(r.primary, r.status.Ok_?));
    PutGet(m, Primary, Raw(r.primary, r.status.Ok_?), j);
    PutGet(n, Secondary, Raw(r.secondary, r.status.Ok_?), j);
    PutGet(Put(n, Secondary, Raw(r.secondary, r.status.Ok_?)), UserMessage, Word(r.message), j);
  }

  /** A reply read back: stamped with this build's version, its secret there exactly
      when the answer is Ok, and refused exactly when that secret is over the cap. */
  lemma SecretReplyBack(r: SecretReply, cap: nat)
    ensures ParseSecretReply(PrintSecret(r), cap) ==
            if r.status.Ok_? && |r.secret| > cap then Err(SecretTooLarge)
            else Ok(SecretReply(r.status, if r.status.Ok_? then r.secret else [], r.message, Some(2)))
  {
  }

  lemma PairReplyBack(r: PairReply, cap: nat)
    ensures ParsePairReply(PrintPair(r), cap) ==
            if r.status.Ok_? && (|r.primary| > cap || |r.secondary| > cap) then Err(SecretTooLarge)
            else Ok(PairReply(r.status, if r.status.Ok_? then r.primary else [],
                              if r.status.Ok_? then r.secondary else [], r.message, Some(2)))
  {
    var m := PrintPair(r);
    PairReplySays(r, V);
    PairReplySays(r, PrompterCodec.Status);
    PairReplySays(r, Primary);
    PairReplySays(r, Secondary);
    PairReplySays(r, UserMessage);
    assert ReplyStatus(m) == Ok(r.status);
    assert ReplyVersion(m) == Ok(Some(2));
  }

  lemma ConfirmReplyBack(r: ConfirmReply)
    ensures ParseConfirmReply(PrintConfirm(r)) == Ok(r.(version := Some(2)))
  {
  }

  lemma ResetDoneBack(r: ResetDone)
    ensures ParseResetDone(PrintReset(r)) == Ok(r)
  {
  }

  /** No secret crosses as a confirmation: an Ok reply of either secret kind is refused,
      and what is accepted carries no secret field. */
  lemma ConfirmationCarriesNoSecret(m: Fields, r: SecretReply, p: PairReply)
    ensures ParseConfirmReply(m).Ok? ==> Secret !in m && Primary !in m && Secondary !in m
    ensures r.status.Ok_? ==> ParseConfirmReply(PrintSecret(r)) == Err(UnknownMessage)
    ensures p.status.Ok_? ==> ParseConfirmReply(PrintPair(p)) == Err(UnknownMessage)
  {
  }

  /** The answer to a request whose type could not be read (`unsupportedVersionReply`, and
      the accept-time refusal): the parser of each status reply reads its status and
      message; only the reset answer's parser does not. */
  lemma RefusalReadableByAll(r: SecretReply, cap: nat)
    requires !r.status.Ok_?
    ensures ParseSecretReply(PrintSecret(r), cap) == Ok(SecretReply(r.status, [], r.message, Some(2)))
    ensures ParsePairReply(PrintSecret(r), cap) == Ok(PairReply(r.status, [], [], r.message, Some(2)))
    ensures ParseConfirmReply(PrintSecret(r)) == Ok(ConfirmReply(r.status, r.message, Some(2)))
    ensures ParseResetDone(PrintSecret(r)) == Err(UnknownMessage)
  {
  }
}
