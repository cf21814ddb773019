/**
 What the prompter's parsers accept, exactly, told from the decoded map alone: which keys
 must be there and of which type, what each accepted message reads as, and what each
 refused one is refused for.
 */
module PrompterAccepts {
  import opened Wrappers
  import opened PrompterCodec
  import opened PrompterReplies

  // ---- fields ---------------------------------------------------------------------------

  predicate TextIfThere(m: Fields, k: Key) {
    k in m ==> m[k].Text?
  }

  predicate NumberIfThere(m: Fields, k: Key) {
    k in m ==> m[k].UInt?
  }

  predicate TextsIfThere(m: Fields, k: Key) {
    k in m ==> m[k].Array? && forall i | 0 <= i < |m[k].items| :: m[k].items[i].Text?
  }

  predicate HasText(m: Fields, k: Key) {
    k in m && m[k].Text?
  }

  function TextAt(m: Fields, k: Key): string
    requires TextIfThere(m, k)
  {
    if k in m then m[k].s else ""
  }

  /** The low 32 bits of the number. */
  function NumberAt(m: Fields, k: Key): U32
    requires NumberIfThere(m, k)
  {
    if k in m then m[k].n % 4294967296 else 0
  }

  function TextsAt(m: Fields, k: Key): seq<string>
    requires TextsIfThere(m, k)
  {
    if k in m then seq(|m[k].items|, i requires 0 <= i < |m[k].items| => m[k].items[i].s) else []
  }

  // ---- requests ---------------------------------------------------------------------------

  predicate DisplayTyped(m: Fields) {
    TextIfThere(m, Title) && TextIfThere(m, Description) && TextIfThere(m, Requester) && TextIfThere(m, Artifact)
  }

  function DisplayAt(m: Fields): Display
    requires DisplayTyped(m)
  {
    Display(TextAt(m, Title), TextAt(m, Description), TextAt(m, Requester), TextAt(m, Artifact))
  }

  predicate LimitsTyped(m: Fields) {
    && NumberIfThere(m, Attempt) && TextIfThere(m, LastError)
    && NumberIfThere(m, DeadlineMs) && NumberIfThere(m, AltDeadlineMs)
  }

  predicate ReaderTyped(m: Fields) {
    TextIfThere(m, ReaderModel) && TextIfThere(m, ReaderInterface) && TextIfThere(m, ReaderFull)
  }

  predicate SecretTyped(m: Fields) {
    && DisplayTyped(m) && NumberIfThere(m, MinLength) && NumberIfThere(m, MaxLength) && TextsIfThere(m, Artifacts)
    && LimitsTyped(m) && TextIfThere(m, PromptId) && ReaderTyped(m)
  }

  predicate SecretsTyped(m: Fields) {
    && DisplayTyped(m) && NumberIfThere(m, PrimaryMinLength) && NumberIfThere(m, PrimaryMaxLength)
    && NumberIfThere(m, NewMinLength) && NumberIfThere(m, NewMaxLength)
    && TextIfThere(m, PromptId) && NumberIfThere(m, DeadlineMs)
  }

  predicate OneSecretWord(w: string) {
    w == "pin" || w == "can" || w == "mrz"
  }

  predicate Tagged(m: Fields, tag: string) {
    HasText(m, T) && m[T].s == tag
  }

  /** The messages the prompter takes: no newer protocol announced, a tag it knows, a kind
      where one is needed, and every field the tag reads of its type or absent. */
  predicate Accepts(m: Fields) {
    && (V in m ==> m[V].UInt? && m[V].n <= 2)
    && (|| Tagged(m, "Reset")
        || (Tagged(m, "CancelCurrent") && TextIfThere(m, PromptId))
        || (Tagged(m, "RequestSecrets") && HasText(m, Kind) && SecretsTyped(m))
        || (Tagged(m, "ConfirmAction") && HasText(m, Kind) && DisplayTyped(m) && TextIfThere(m, DescriptionKey))
        || (Tagged(m, "RequestSecret") && HasText(m, Kind) && OneSecretWord(m[Kind].s) && SecretTyped(m)))
  }

  function SecretAt(m: Fields): Request
    requires HasText(m, Kind) && OneSecretWord(m[Kind].s) && SecretTyped(m)
  {
    RequestSecret(if m[Kind].s == "pin" then Pin else if m[Kind].s == "can" then Can else Mrz, DisplayAt(m),
                  NumberAt(m, MinLength), NumberAt(m, MaxLength), TextsAt(m, Artifacts),
                  Retry(NumberAt(m, Attempt), TextAt(m, LastError)), TextAt(m, PromptId),
                  Deadlines(NumberAt(m, DeadlineMs), NumberAt(m, AltDeadlineMs)), ReaderAt(m))
  }

  function ReaderAt(m: Fields): ReaderText
    requires ReaderTyped(m)
  {
    ReaderText(TextAt(m, ReaderModel), TextAt(m, ReaderInterface), TextAt(m, ReaderFull))
  }

  function SecretsAt(m: Fields): Request
    requires HasText(m, Kind) && SecretsTyped(m)
  {
    RequestSecrets(m[Kind].s, DisplayAt(m), NumberAt(m, PrimaryMinLength), NumberAt(m, PrimaryMaxLength),
                   NumberAt(m, NewMinLength), NumberAt(m, NewMaxLength), TextAt(m, PromptId), NumberAt(m, DeadlineMs))
  }

  /** What an accepted message reads as, key by key. */
  function Reading(m: Fields): Request
    requires Accepts(m)
  {
    if Tagged(m, "Reset") then Reset
    else if Tagged(m, "CancelCurrent") then CancelCurrent(TextAt(m, PromptId))
    else if Tagged(m, "RequestSecrets") then SecretsAt(m)
    else if Tagged(m, "ConfirmAction") then ConfirmAction(m[Kind].s, DisplayAt(m), TextAt(m, DescriptionKey))
    else SecretAt(m)
  }

  predicate KnownTag(w: string) {
    w in {"Reset", "CancelCurrent", "RequestSecrets", "ConfirmAction", "RequestSecret"}
  }

  /** What a message that is not accepted is refused for: the protocol before the tag, the
      tag before the kind, the kind before the fields. */
  function Complaint(m: Fields): ParseError
    requires !Accepts(m)
  {
    if V in m && !m[V].UInt? then WrongType
    else if V in m && m[V].n > 2 then UnsupportedVersion
    else if !HasText(m, T) then MissingField
    else if !KnownTag(m[T].s) then UnknownMessage
    else if !HasText(m, Kind) && !Tagged(m, "CancelCurrent") then MissingField
    else if Tagged(m, "RequestSecret") && !OneSecretWord(m[Kind].s) then BadEnum
    else WrongType
  }

  lemma TextsExactly(m: Fields, k: Key)
    ensures OptTexts(Get(m, k)) == if TextsIfThere(m, k) then Some(TextsAt(m, k)) else None
  {
    if k in m && TextsIfThere(m, k) {
      assert OptTexts(Get(m, k)).value == TextsAt(m, k);
    }
  }

  lemma NumberExactly(m: Fields, k: Key)
    ensures OptUInt(Get(m, k)).Some? <==> NumberIfThere(m, k)
    ensures NumberIfThere(m, k) ==> Narrow(OptUInt(Get(m, k)).value) == NumberAt(m, k)
  {
  }

  lemma DisplayExactly(m: Fields)
    ensures OptDisplay(m) == if DisplayTyped(m) then Some(DisplayAt(m)) else None
  {
  }

  lemma LimitsExactly(m: Fields)
    ensures OptRetry(m).Some? && OptDeadlines(m).Some? <==> LimitsTyped(m)
    ensures LimitsTyped(m) ==>
              && OptRetry(m).value == Retry(NumberAt(m, Attempt), TextAt(m, LastError))
              && OptDeadlines(m).value == Deadlines(NumberAt(m, DeadlineMs), NumberAt(m, AltDeadlineMs))
  {
  }

  lemma ReaderExactly(m: Fields)
    ensures OptReader(m) == if ReaderTyped(m) then Some(ReaderAt(m)) else None
  {
  }

  lemma SecretExactly(m: Fields)
    requires HasText(m, Kind)
    ensures ParseSecret(m, m[Kind].s) ==
            if !OneSecretWord(m[Kind].s) then Err(BadEnum)
            else if SecretTyped(m) then Ok(SecretAt(m)) else Err(WrongType)
  {
    DisplayExactly(m);
    TextsExactly(m, Artifacts);
    LimitsExactly(m);
    ReaderExactly(m);
  }

  lemma SecretsExactly(m: Fields)
    requires HasText(m, Kind)
    ensures ParseSecrets(m, m[Kind].s) == if SecretsTyped(m) then Ok(SecretsAt(m)) else Err(WrongType)
  {
    DisplayExactly(m);
    NumberExactly(m, PrimaryMinLength);
    NumberExactly(m, PrimaryMaxLength);
    NumberExactly(m, NewMinLength);
    NumberExactly(m, NewMaxLength);
    NumberExactly(m, DeadlineMs);
  }

  /** The strict parser is exactly this: what is accepted, what it reads as, and why the
      rest is refused. */
  lemma ParsedExactly(m: Fields)
    ensures ParseFields(m) == if Accepts(m) then Ok(Reading(m)) else Err(Complaint(m))
  {
    if HasText(m, T) {
      DisplayExactly(m);
      if HasText(m, Kind) {
        SecretExactly(m);
        SecretsExactly(m);
      }
    }
  }

  /** A body that is no CBOR, or no map, is refused as that. */
  lemma BodyExactly(body: Option<Cbor>)
    ensures Parse(body) == if body.None? then Err(NotDecodable)
                           else if !body.value.Map? then Err(NotAMap)
                           else if Accepts(body.value.fields) then Ok(Reading(body.value.fields))
                           else Err(Complaint(body.value.fields))
  {
    if body.Some? && body.value.Map? {
      ParsedExactly(body.value.fields);
    }
  }

  // ---- replies ------------------------------------------------------------------------------

  predicate StatusWord(w: string) {
    w in {"ok", "cancelled", "error", "unauthorized", "timeout", "ok_mrz"}
  }

  function StatusOf(w: string): PrompterReplies.Status
    requires StatusWord(w)
  {
    if w == "ok" then Ok_ else if w == "cancelled" then Cancelled else if w == "error" then Error
    else if w == "unauthorized" then Unauthorized else if w == "timeout" then Timeout else OkMrz
  }

  predicate HasStatus(m: Fields) {
    HasText(m, PrompterCodec.Status) && StatusWord(m[PrompterCodec.Status].s)
  }

  /** Only an "ok" carries secrets. */
  predicate SaysOk(m: Fields) {
    HasText(m, PrompterCodec.Status) && m[PrompterCodec.Status].s == "ok"
  }

  /** No version, or one that fits the reply's 32 bits. */
  predicate VersionFits(m: Fields) {
    V in m ==> m[V].UInt? && m[V].n < 4294967296
  }

  function VersionAt(m: Fields): Option<U32>
    requires VersionFits(m)
  {
    if V in m then Some(m[V].n) else None
  }

  predicate HasBytes(m: Fields, k: Key, cap: nat) {
    k in m && m[k].Bytes? && |m[k].b| <= cap
  }

  function StatusComplaint(m: Fields): ParseError {
    if HasText(m, PrompterCodec.Status) then BadEnum else MissingField
  }

  function BytesComplaint(m: Fields, k: Key): ParseError {
    if k in m && m[k].Bytes? then SecretTooLarge else MissingField
  }

  lemma StatusExactly(m: Fields)
    ensures ReplyStatus(m) ==
            if HasStatus(m) then Ok(StatusOf(m[PrompterCodec.Status].s)) else Err(StatusComplaint(m))
  {
  }

  lemma VersionExactly(m: Fields)
    ensures ReplyVersion(m) == if VersionFits(m) then Ok(VersionAt(m)) else Err(WrongType)
  {
  }

  lemma BytesExactly(m: Fields, k: Key, cap: nat)
    ensures RequiredSecret(m, k, cap) == if HasBytes(m, k, cap) then Ok(m[k].b) else Err(BytesComplaint(m, k))
  {
  }

  /** The secret reply's parser: accepted with a status word, a version that fits, a secret
      within the cap if the status is "ok", and a message that is text if there is one; refused
      for the first of these that fails. */
  lemma SecretReplyExactly(m: Fields, cap: nat)
    ensures ParseSecretReply(m, cap) ==
            if !HasStatus(m) then Err(StatusComplaint(m))
            else if !VersionFits(m) then Err(WrongType)
            else if SaysOk(m) && !HasBytes(m, Secret, cap) then Err(BytesComplaint(m, Secret))
            else if !TextIfThere(m, UserMessage) then Err(WrongType)
            else Ok(SecretReply(StatusOf(m[PrompterCodec.Status].s), if SaysOk(m) then m[Secret].b else [],
                                TextAt(m, UserMessage), VersionAt(m)))
  {
    StatusExactly(m);
    VersionExactly(m);
    BytesExactly(m, Secret, cap);
  }

  lemma PairReplyExactly(m: Fields, cap: nat)
    ensures ParsePairReply(m, cap) ==
            if !HasStatus(m) then Err(StatusComplaint(m))
            else if !VersionFits(m) then Err(WrongType)
            else if SaysOk(m) && !HasBytes(m, Primary, cap) then Err(BytesComplaint(m, Primary))
            else if SaysOk(m) && !HasBytes(m, Secondary, cap) then Err(BytesComplaint(m, Secondary))
            else if !TextIfThere(m, UserMessage) then Err(WrongType)
            else Ok(PairReply(StatusOf(m[PrompterCodec.Status].s), if SaysOk(m) then m[Primary].b else [],
                              if SaysOk(m) then m[Secondary].b else [], TextAt(m, UserMessage), VersionAt(m)))
  {
    StatusExactly(m);
    VersionExactly(m);
    BytesExactly(m, Primary, cap);
    BytesExactly(m, Secondary, cap);
  }

  /** The confirmation's parser refuses whatever holds a secret's key, whatever else it holds. */
  lemma ConfirmReplyExactly(m: Fields)
    ensures ParseConfirmReply(m) ==
            if Secret in m || Primary in m || Secondary in m then Err(UnknownMessage)
            else if !HasStatus(m) then Err(StatusComplaint(m))
            else if !TextIfThere(m, UserMessage) || !VersionFits(m) then Err(WrongType)
            else Ok(ConfirmReply(StatusOf(m[PrompterCodec.Status].s), TextAt(m, UserMessage), VersionAt(m)))
  {
    StatusExactly(m);
    VersionExactly(m);
  }

  lemma ResetDoneExactly(m: Fields)
    ensures ParseResetDone(m) ==
            if !HasText(m, T) then Err(MissingField)
            else if m[T].s != "ResetDone" then Err(UnknownMessage)
            else if !NumberIfThere(m, ClosedCount) then Err(WrongType)
            else Ok(ResetDone(NumberAt(m, ClosedCount)))
  {
  }
}
