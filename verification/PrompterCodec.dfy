/**
 The private agent-to-prompter protocol over CBOR trees: printers and strict parsers
 of the five requests. The byte encoding of a tree is not part of this model; a parser
 is given what decoding the bytes gave, or nothing.
 */
module PrompterCodec {
  import opened Wrappers

  /** A map key: the words this build knows, and any other text. */
  datatype Key =
    | T | V | Kind | Title | Description | DescriptionKey | Requester | Artifact | Artifacts
    | MinLength | MaxLength | PrimaryMinLength | PrimaryMaxLength | NewMinLength | NewMaxLength
    | Attempt | LastError | PromptId | DeadlineMs | AltDeadlineMs | ReaderModel | ReaderInterface | ReaderFull
    | Status | Secret | Primary | Secondary | UserMessage | ClosedCount
    | Unknown(word: string)

  datatype Cbor =
    | UInt(n: nat)
    | Text(s: string)
    | Bytes(b: seq<Byte>)
    | Array(items: seq<Cbor>)
    | Map(fields: map<Key, Cbor>)
    | Other(code: int)

  type Fields = map<Key, Cbor>

  type U32 = x: int | 0 <= x < 0x1_0000_0000

  const PROTOCOL_VERSION: nat := 2

  datatype ParseError = NotDecodable | NotAMap | MissingField | WrongType | UnknownMessage | BadEnum
                      | SecretTooLarge | UnsupportedVersion

  datatype PromptKind = Pin | Can | Mrz | ChangePin

  datatype Display = Display(title: string, description: string, requester: string, artifact: string)

  datatype Retry = Retry(attempt: U32, lastError: string)

  datatype Deadlines = Deadlines(main: U32, alternative: U32)

  datatype ReaderText = ReaderText(model: string, iface: string, full: string)

  datatype Request =
    | RequestSecret(kind: PromptKind, display: Display, minLength: U32, maxLength: U32, artifacts: seq<string>,
                    retry: Retry, promptId: string, deadlines: Deadlines, reader: ReaderText)
    | CancelCurrent(promptId: string)
    | RequestSecrets(flow: string, display: Display, primaryMin: U32, primaryMax: U32, newMin: U32, newMax: U32,
                     promptId: string, deadline: U32)
    | ConfirmAction(flow: string, display: Display, descriptionKey: string)
    | Reset

  // ---- words ----------------------------------------------------------------------------

  function KindToken(k: PromptKind): string {
    match k case Pin => "pin" case Can => "can" case Mrz => "mrz" case ChangePin => "change_pin"
  }

  function KindFromToken(s: string): Option<PromptKind> {
    if s == "pin" then Some(Pin)
    else if s == "can" then Some(Can)
    else if s == "mrz" then Some(Mrz)
    else if s == "change_pin" then Some(ChangePin)
    else None
  }

  // ---- printing ---------------------------------------------------------------------------

  /** `emplace`, when there is something to say. */
  function Put(m: Fields, k: Key, v: Option<Cbor>): Fields {
    if v.Some? && k !in m then m[k := v.value] else m
  }

  function Word(s: string): Option<Cbor> {
    if s == "" then None else Some(Text(s))
  }

  function Number(n: U32): Option<Cbor> {
    if n == 0 then None else Some(UInt(n))
  }

  function Words(ss: seq<string>): Option<Cbor> {
    if ss == [] then None else Some(Array(seq(|ss|, i requires 0 <= i < |ss| => Text(ss[i]))))
  }

  /** An interface nobody could determine is absence, not the word for it. */
  function InterfaceWord(s: string): Option<Cbor> {
    if s == "unknown" then None else Word(s)
  }

  function Header(tag: string): Fields {
    Put(Put(map[], T, Some(Text(tag))), V, Some(UInt(PROTOCOL_VERSION)))
  }

  function PutDisplay(m: Fields, d: Display): Fields {
    Put(Put(Put(Put(m, Title, Word(d.title)), Description, Word(d.description)), Requester, Word(d.requester)),
        Artifact, Word(d.artifact))
  }

  function PutBounds(m: Fields, r: Request): Fields
    requires r.RequestSecret?
  {
    var l := Put(Put(m, MinLength, Number(r.minLength)), MaxLength, Number(r.maxLength));
    var a := Put(l, Artifacts, Words(r.artifacts));
    Put(Put(Put(a, Attempt, Number(r.retry.attempt)), LastError, Word(r.retry.lastError)), PromptId, Word(r.promptId))
  }

  function PutReader(m: Fields, d: Deadlines, t: ReaderText): Fields {
    var c := Put(Put(m, DeadlineMs, Number(d.main)), AltDeadlineMs, Number(d.alternative));
    Put(Put(Put(c, ReaderModel, Word(t.model)), ReaderInterface, InterfaceWord(t.iface)), ReaderFull, Word(t.full))
  }

  function PutSecret(m: Fields, r: Request): Fields
    requires r.RequestSecret?
  {
    PutReader(PutBounds(m, r), r.deadlines, r.reader)
  }

  function PutSecrets(m: Fields, r: Request): Fields
    requires r.RequestSecrets?
  {
    var a := Put(Put(m, PrimaryMinLength, Number(r.primaryMin)), PrimaryMaxLength, Number(r.primaryMax));
    var b := Put(Put(a, NewMinLength, Number(r.newMin)), NewMaxLength, Number(r.newMax));
    Put(Put(b, PromptId, Word(r.promptId)), DeadlineMs, Number(r.deadline))
  }

  /** The requests' `toCbor`. */
  function Print(r: Request): Fields {
    match r
    case RequestSecret(kind, display, _, _, _, _, _, _, _) =>
      PutSecret(PutDisplay(Put(Header("RequestSecret"), Kind, Some(Text(KindToken(kind)))), display), r)
    case CancelCurrent(id) => Put(Header("CancelCurrent"), PromptId, Word(id))
    case RequestSecrets(flow, display, _, _, _, _, _, _) =>
      PutSecrets(PutDisplay(Put(Header("RequestSecrets"), Kind, Some(Text(flow))), display), r)
    case ConfirmAction(flow, display, key) =>
      Put(PutDisplay(Put(Header("ConfirmAction"), Kind, Some(Text(flow))), display), DescriptionKey, Word(key))
    case Reset => Header("Reset")
  }

  // ---- parsing ------------------------------------------------------------------------------

  /** `find` */
  function Get(m: Fields, k: Key): Option<Cbor> {
    if k in m then Some(m[k]) else None
  }

  /** A text field: absent reads as empty, anything but text fails. */
  function OptText(v: Option<Cbor>): Option<string> {
    match v
    case None => Some("")
    case Some(c) => if c.Text? then Some(c.s) else None
  }

  function OptUInt(v: Option<Cbor>): Option<nat> {
    match v
    case None => Some(0)
    case Some(c) => if c.UInt? then Some(c.n) else None
  }

  function OptTexts(v: Option<Cbor>): Option<seq<string>> {
    match v
    case None => Some([])
    case Some(c) =>
      if c.Array? && forall i | 0 <= i < |c.items| :: c.items[i].Text?
      then Some(seq(|c.items|, i requires 0 <= i < |c.items| => if c.items[i].Text? then c.items[i].s else ""))
      else None
  }

  /** `optStringArray`: every item must be text. */
  method OptStringArray(v: Option<Cbor>) returns (r: Option<seq<string>>)
    ensures r == OptTexts(v)
  {
    if v.None? {
      return Some([]);
    }
    if !v.value.Array? {
      return None;
    }
    var items := v.value.items;
    var out: seq<string> := [];
    for i := 0 to |items|
      invariant |out| == i && forall j | 0 <= j < i :: items[j].Text? && out[j] == items[j].s
    {
      if !items[i].Text? {
        return None;
      }
      out := out + [items[i].s];
    }
    assert OptTexts(v).Some? && OptTexts(v).value == out;
    return Some(out);
  }

  /** `static_cast<std::uint32_t>` */
  function Narrow(n: nat): U32 {
    n % 0x1_0000_0000
  }

  /** The announced protocol, at full width; absent is none. */
  function Announced(v: Option<Cbor>): Result<Option<nat>, ParseError> {
    match v
    case None => Ok(None)
    case Some(c) => if c.UInt? then Ok(Some(c.n)) else Err(WrongType)
  }

  function OptDisplay(m: Fields): Option<Display> {
    var t, d := OptText(Get(m, Title)), OptText(Get(m, Description));
    var r, a := OptText(Get(m, Requester)), OptText(Get(m, Artifact));
    if t.Some? && d.Some? && r.Some? && a.Some? then Some(Display(t.value, d.value, r.value, a.value)) else None
  }

  function ParseSecrets(m: Fields, flow: string): Result<Request, ParseError> {
    var d := OptDisplay(m);
    var a, b := OptUInt(Get(m, PrimaryMinLength)), OptUInt(Get(m, PrimaryMaxLength));
    var c, e := OptUInt(Get(m, NewMinLength)), OptUInt(Get(m, NewMaxLength));
    var id, w := OptText(Get(m, PromptId)), OptUInt(Get(m, DeadlineMs));
    if d.None? || a.None? || b.None? || c.None? || e.None? || id.None? || w.None? then Err(WrongType)
    else Ok(RequestSecrets(flow, d.value, Narrow(a.value), Narrow(b.value), Narrow(c.value), Narrow(e.value), id.value,
                           Narrow(w.value)))
  }

  function ParseConfirm(m: Fields, flow: string): Result<Request, ParseError> {
    var d, k := OptDisplay(m), OptText(Get(m, DescriptionKey));
    if d.None? || k.None? then Err(WrongType) else Ok(ConfirmAction(flow, d.value, k.value))
  }

  function OptRetry(m: Fields): Option<Retry> {
    var a, e := OptUInt(Get(m, Attempt)), OptText(Get(m, LastError));
    if a.Some? && e.Some? then Some(Retry(Narrow(a.value), e.value)) else None
  }

  function OptDeadlines(m: Fields): Option<Deadlines> {
    var a, b := OptUInt(Get(m, DeadlineMs)), OptUInt(Get(m, AltDeadlineMs));
    if a.Some? && b.Some? then Some(Deadlines(Narrow(a.value), Narrow(b.value))) else None
  }

  function OptReader(m: Fields): Option<ReaderText> {
    var a, b, c := OptText(Get(m, ReaderModel)), OptText(Get(m, ReaderInterface)), OptText(Get(m, ReaderFull));
    if a.Some? && b.Some? && c.Some? then Some(ReaderText(a.value, b.value, c.value)) else None
  }

  function ParseSecret(m: Fields, word: string): Result<Request, ParseError> {
    var kind := KindFromToken(word);
    if kind.None? || kind.value == ChangePin then Err(BadEnum)
    else
      var d, lo, hi := OptDisplay(m), OptUInt(Get(m, MinLength)), OptUInt(Get(m, MaxLength));
      var names, retry, id := OptTexts(Get(m, Artifacts)), OptRetry(m), OptText(Get(m, PromptId));
      var limits, reader := OptDeadlines(m), OptReader(m);
      if d.None? || lo.None? || hi.None? || names.None? || retry.None? || id.None? || limits.None? || reader.None? then
        Err(WrongType)
      else Ok(RequestSecret(kind.value, d.value, Narrow(lo.value), Narrow(hi.value), names.value, retry.value, id.value,
                            limits.value, reader.value))
  }

  /** The message once its tag is known. */
  function ParseTagged(m: Fields, tag: string): Result<Request, ParseError> {
    if tag == "Reset" then Ok(Reset)
    else if tag == "CancelCurrent" then
      var id := OptText(Get(m, PromptId));
      if id.None? then Err(WrongType) else Ok(CancelCurrent(id.value))
    else if tag != "RequestSecrets" && tag != "ConfirmAction" && tag != "RequestSecret" then Err(UnknownMessage)
    else if Kind !in m || !m[Kind].Text? then Err(MissingField)
    else if tag == "RequestSecrets" then ParseSecrets(m, m[Kind].s)
    else if tag == "ConfirmAction" then ParseConfirm(m, m[Kind].s)
    else ParseSecret(m, m[Kind].s)
  }

  function ParseFields(m: Fields): Result<Request, ParseError> {
    var v := Announced(Get(m, V));
    if v.Err? then Err(v.error)
    else if v.value.Some? && v.value.value > PROTOCOL_VERSION then Err(UnsupportedVersion)
    else if T !in m || !m[T].Text? then Err(MissingField)
    else ParseTagged(m, m[T].s)
  }

  /** `parsePrompterRequest`, from what decoding the body gave. */
  function Parse(body: Option<Cbor>): Result<Request, ParseError> {
    match body
    case None => Err(NotDecodable)
    case Some(c) => if c.Map? then ParseFields(c.fields) else Err(NotAMap)
  }

  // ---- what is printed -----------------------------------------------------------------------

  /** A text is said when it is not empty, a number when it is not zero, a list when it has
      items. */
  function SaidText(s: string): Option<Cbor> {
    if |s| > 0 then Some(Text(s)) else None
  }

  function SaidNumber(n: U32): Option<Cbor> {
    if n > 0 then Some(UInt(n)) else None
  }

  function SaidTexts(ss: seq<string>): Option<Cbor> {
    if |ss| > 0 then Some(Array(seq(|ss|, i requires 0 <= i < |ss| => Text(ss[i])))) else None
  }

  function SaidInterface(s: string): Option<Cbor> {
    if s != "" && s != "unknown" then Some(Text(s)) else None
  }

  function SaidKind(k: PromptKind): string {
    if k.Pin? then "pin" else if k.Can? then "can" else if k.Mrz? then "mrz" else "change_pin"
  }

  /** What field `k` of request `r` says on the wire: the protocol's own table. */
  function Says(r: Request, k: Key): Option<Cbor> {
    match r
    case RequestSecret(kind, display, lo, hi, names, retry, id, limits, reader) =>
      (match k
       case T => Some(Text("RequestSecret"))
       case V => Some(UInt(2))
       case Kind => Some(Text(SaidKind(kind)))
       case MinLength => SaidNumber(lo)
       case MaxLength => SaidNumber(hi)
       case Artifacts => SaidTexts(names)
       case Attempt => SaidNumber(retry.attempt)
       case LastError => SaidText(retry.lastError)
       case PromptId => SaidText(id)
       case DeadlineMs => SaidNumber(limits.main)
       case AltDeadlineMs => SaidNumber(limits.alternative)
       case ReaderModel => SaidText(reader.model)
       case ReaderInterface => SaidInterface(reader.iface)
       case ReaderFull => SaidText(reader.full)
       case _ => DisplaySays(display, k))
    case CancelCurrent(id) =>
      (match k
       case T => Some(Text("CancelCurrent"))
       case V => Some(UInt(2))
       case PromptId => SaidText(id)
       case _ => None)
    case RequestSecrets(flow, display, plo, phi, nlo, nhi, id, limit) =>
      (match k
       case T => Some(Text("RequestSecrets"))
       case V => Some(UInt(2))
       case Kind => Some(Text(flow))
       case PrimaryMinLength => SaidNumber(plo)
       case PrimaryMaxLength => SaidNumber(phi)
       case NewMinLength => SaidNumber(nlo)
       case NewMaxLength => SaidNumber(nhi)
       case PromptId => SaidText(id)
       case DeadlineMs => SaidNumber(limit)
       case _ => DisplaySays(display, k))
    case ConfirmAction(flow, display, key) =>
      (match k
       case T => Some(Text("ConfirmAction"))
       case V => Some(UInt(2))
       case Kind => Some(Text(flow))
       case DescriptionKey => SaidText(key)
       case _ => DisplaySays(display, k))
    case Reset =>
      (match k
       case T => Some(Text("Reset"))
       case V => Some(UInt(2))
       case _ => None)
  }

  function DisplaySays(d: Display, k: Key): Option<Cbor> {
    match k
    case Title => SaidText(d.title)
    case Description => SaidText(d.description)
    case Requester => SaidText(d.requester)
    case Artifact => SaidText(d.artifact)
    case _ => None
  }

  lemma PutGet(m: Fields, k: Key, v: Option<Cbor>, j: Key)
    ensures Get(Put(m, k, v), j) == if j == k && Get(m, k).None? then v else Get(m, j)
  {
  }

  lemma DisplayGet(m: Fields, d: Display, j: Key)
    requires Title !in m && Description !in m && Requester !in m && Artifact !in m
    ensures Get(PutDisplay(m, d), j) ==
            match j case Title => Word(d.title) case Description => Word(d.description)
                    case Requester => Word(d.requester) case Artifact => Word(d.artifact) case _ => Get(m, j)
  {
    var a := Put(m, Title, Word(d.title));
    var b := Put(a, Description, Word(d.description));
    var c := Put(b, Requester, Word(d.requester));
    PutGet(m, Title, Word(d.title), j);
    PutGet(a, Description, Word(d.description), j);
    PutGet(b, Requester, Word(d.requester), j);
    PutGet(c, Artifact, Word(d.artifact), j);
  }
}
