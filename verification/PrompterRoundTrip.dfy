/**
 What the request codec promises: printing then parsing gives the request back, what is
 accepted has one printed form, and a message is judged by its version first and by the
 keys this build knows only.
 */
module PrompterRoundTrip {
  import opened Wrappers
  import opened PrompterCodec

  // ---- printing matches the table --------------------------------------------------------

  /** The fields every titled request starts with. */
  function Opening(tag: string, word: string, d: Display): Fields {
    PutDisplay(Put(Header(tag), Kind, Some(Text(word))), d)
  }

  lemma OpeningGet(tag: string, word: string, d: Display, j: Key)
    ensures Get(Opening(tag, word, d), j) ==
            match j case T => Some(Text(tag)) case V => Some(UInt(2)) case Kind => Some(Text(word))
                    case _ => DisplaySays(d, j)
  {
    var m := Put(Header(tag), Kind, Some(Text(word)));
    DisplayGet(m, d, j);
  }

  /** Nothing but the fields a titled request starts with. */
  predicate OnlyOpening(m: Fields) {
    forall k | k in m :: k in {T, V, Kind, Title, Description, Requester, Artifact}
  }

  lemma BoundsGet(m: Fields, r: Request, j: Key)
    requires r.RequestSecret? && OnlyOpening(m)
    ensures Get(PutBounds(m, r), j) ==
            match j
            case MinLength => SaidNumber(r.minLength)
            case MaxLength => SaidNumber(r.maxLength)
            case Artifacts => SaidTexts(r.artifacts)
            case Attempt => SaidNumber(r.retry.attempt)
            case LastError => SaidText(r.retry.lastError)
            case PromptId => SaidText(r.promptId)
            case _ => Get(m, j)
  {
    var m1 := Put(m, MinLength, Number(r.minLength));
    var m2 := Put(m1, MaxLength, Number(r.maxLength));
    var m3 := Put(m2, Artifacts, Words(r.artifacts));
    var m4 := Put(m3, Attempt, Number(r.retry.attempt));
    var m5 := Put(m4, LastError, Word(r.retry.lastError));
    PutGet(m, MinLength, Number(r.minLength), j);
    PutGet(m1, MaxLength, Number(r.maxLength), j);
    PutGet(m2, Artifacts, Words(r.artifacts), j);
    PutGet(m3, Attempt, Number(r.retry.attempt), j);
    PutGet(m4, LastError, Word(r.retry.lastError), j);
    PutGet(m5, PromptId, Word(r.promptId), j);
  }

  lemma ReaderGet(m: Fields, d: Deadlines, t: ReaderText, j: Key)
    requires DeadlineMs !in m && AltDeadlineMs !in m && ReaderModel !in m && ReaderInterface !in m && ReaderFull !in m
    ensures Get(PutReader(m, d, t), j) ==
            match j
            case DeadlineMs => SaidNumber(d.main)
            case AltDeadlineMs => SaidNumber(d.alternative)
            case ReaderModel => SaidText(t.model)
            case ReaderInterface => SaidInterface(t.iface)
            case ReaderFull => SaidText(t.full)
            case _ => Get(m, j)
  {
    var m1 := Put(m, DeadlineMs, Number(d.main));
    var m2 := Put(m1, AltDeadlineMs, Number(d.alternative));
    var m3 := Put(m2, ReaderModel, Word(t.model));
    var m4 := Put(m3, ReaderInterface, InterfaceWord(t.iface));
    PutGet(m, DeadlineMs, Number(d.main), j);
    PutGet(m1, AltDeadlineMs, Number(d.alternative), j);
    PutGet(m2, ReaderModel, Word(t.model), j);
    PutGet(m3, ReaderInterface, InterfaceWord(t.iface), j);
    PutGet(m4, ReaderFull, Word(t.full), j);
  }

  lemma BoundsFresh(m: Fields, r: Request)
    requires r.RequestSecret? && OnlyOpening(m)
    ensures var b := PutBounds(m, r);
            DeadlineMs !in b && AltDeadlineMs !in b && ReaderModel !in b && ReaderInterface !in b && ReaderFull !in b
  {
    BoundsGet(m, r, DeadlineMs);
    BoundsGet(m, r, AltDeadlineMs);
    BoundsGet(m, r, ReaderModel);
    BoundsGet(m, r, ReaderInterface);
    BoundsGet(m, r, ReaderFull);
  }

  lemma SecretGet(m: Fields, r: Request, j: Key)
    requires r.RequestSecret? && OnlyOpening(m)
    ensures Get(PutSecret(m, r), j) ==
            match j
            case DeadlineMs => SaidNumber(r.deadlines.main)
            case AltDeadlineMs => SaidNumber(r.deadlines.alternative)
            case ReaderModel => SaidText(r.reader.model)
            case ReaderInterface => SaidInterface(r.reader.iface)
            case ReaderFull => SaidText(r.reader.full)
            case _ => Get(PutBounds(m, r), j)
  {
    BoundsFresh(m, r);
    ReaderGet(PutBounds(m, r), r.deadlines, r.reader, j);
  }

  lemma SecretsGet(m: Fields, r: Request, j: Key)
    requires r.RequestSecrets? && OnlyOpening(m)
    ensures Get(PutSecrets(m, r), j) ==
            match j
            case PrimaryMinLength => SaidNumber(r.primaryMin)
            case PrimaryMaxLength => SaidNumber(r.primaryMax)
            case NewMinLength => SaidNumber(r.newMin)
            case NewMaxLength => SaidNumber(r.newMax)
            case PromptId => SaidText(r.promptId)
            case DeadlineMs => SaidNumber(r.deadline)
            case _ => Get(m, j)
  {
    var m1 := Put(m, PrimaryMinLength, Number(r.primaryMin));
    var m2 := Put(m1, PrimaryMaxLength, Number(r.primaryMax));
    var m3 := Put(m2, NewMinLength, Number(r.newMin));
    var m4 := Put(m3, NewMaxLength, Number(r.newMax));
    var m5 := Put(m4, PromptId, Word(r.promptId));
    PutGet(m, PrimaryMinLength, Number(r.primaryMin), j);
    PutGet(m1, PrimaryMaxLength, Number(r.primaryMax), j);
    PutGet(m2, NewMinLength, Number(r.newMin), j);
    PutGet(m3, NewMaxLength, Number(r.newMax), j);
    PutGet(m4, PromptId, Word(r.promptId), j);
    PutGet(m5, DeadlineMs, Number(r.deadline), j);
  }

  lemma SecretSays(r: Request, k: Key)
    requires r.RequestSecret?
    ensures Get(Print(r), k) == Says(r, k)
  {
    var m := Opening("RequestSecret", KindToken(r.kind), r.display);
    OpeningGet("RequestSecret", KindToken(r.kind), r.display, k);
    BoundsGet(m, r, k);
    SecretGet(m, r, k);
  }

  lemma SecretsSay(r: Request, k: Key)
    requires r.RequestSecrets?
    ensures Get(Print(r), k) == Says(r, k)
  {
    OpeningGet("RequestSecrets", r.flow, r.display, k);
    SecretsGet(Opening("RequestSecrets", r.flow, r.display), r, k);
  }

  lemma ConfirmSays(r: Request, k: Key)
    requires r.ConfirmAction?
    ensures Get(Print(r), k) == Says(r, k)
  {
    OpeningGet("ConfirmAction", r.flow, r.display, k);
    OpeningGet("ConfirmAction", r.flow, r.display, DescriptionKey);
    PutGet(Opening("ConfirmAction", r.flow, r.display), DescriptionKey, Word(r.descriptionKey), k);
  }

  lemma ResetSays(r: Request, k: Key)
    requires r.Reset?
    ensures Get(Print(r), k) == Says(r, k)
  {
  }

  /** A printed request says, field by field, exactly what the protocol's table says. */
  lemma PrintSays(r: Request, k: Key)
    ensures Get(Print(r), k) == Says(r, k)
  {
    if r.RequestSecret? {
      SecretSays(r, k);
    } else if r.RequestSecrets? {
      SecretsSay(r, k);
    } else if r.ConfirmAction? {
      ConfirmSays(r, k);
    } else if r.CancelCurrent? {
    } else {
      ResetSays(r, k);
    }
  }

  // ---- reading back ---------------------------------------------------------------------------

  lemma NumberBack(n: U32)
    ensures OptUInt(Number(n)) == Some(n) && Narrow(n) == n
  {
  }

  lemma WordsBack(ss: seq<string>)
    ensures OptTexts(Words(ss)) == Some(ss)
  {
    if ss != [] {
      var items := seq(|ss|, i requires 0 <= i < |ss| => Text(ss[i]));
      var back := OptTexts(Some(Array(items)));
      assert forall i | 0 <= i < |items| :: items[i].Text?;
      assert back.Some? && |back.value| == |ss|;
      assert back.value == ss;
    }
  }

  /** What an interface word reads back as: "unknown" is said by silence. */
  function CanonInterface(s: string): string {
    if s == "unknown" then "" else s
  }

  /** The request as the other side reads it. */
  function Canon(r: Request): Request {
    if r.RequestSecret? then r.(reader := r.reader.(iface := CanonInterface(r.reader.iface))) else r
  }

  /** The fields say what the table says of `r`. */
  ghost predicate Matches(m: Fields, r: Request) {
    forall k {:trigger Get(m, k)} :: Get(m, k) == Says(r, k)
  }

  lemma DisplayBack(m: Fields, d: Display)
    requires Get(m, Title) == Word(d.title) && Get(m, Description) == Word(d.description)
    requires Get(m, Requester) == Word(d.requester) && Get(m, Artifact) == Word(d.artifact)
    ensures OptDisplay(m) == Some(d)
  {
  }

  lemma RetryBack(m: Fields, r: Request)
    requires Matches(m, r) && r.RequestSecret?
    ensures OptRetry(m) == Some(r.retry) && OptDeadlines(m) == Some(r.deadlines)
  {
    NumberBack(r.retry.attempt);
    NumberBack(r.deadlines.main);
    NumberBack(r.deadlines.alternative);
  }

  lemma ReaderBack(m: Fields, r: Request)
    requires Matches(m, r) && r.RequestSecret?
    ensures OptReader(m) == Some(Canon(r).reader)
  {
  }

  lemma BoundsBack(m: Fields, r: Request)
    requires Matches(m, r) && r.RequestSecret?
    ensures OptUInt(Get(m, MinLength)) == Some(r.minLength) && OptUInt(Get(m, MaxLength)) == Some(r.maxLength)
    ensures OptTexts(Get(m, Artifacts)) == Some(r.artifacts) && OptText(Get(m, PromptId)) == Some(r.promptId)
  {
    NumberBack(r.minLength);
    NumberBack(r.maxLength);
    WordsBack(r.artifacts);
  }

  /** Every part read back, the whole is. */
  lemma SecretFromParts(m: Fields, r: Request)
    requires r.RequestSecret? && OptDisplay(m) == Some(r.display) && OptRetry(m) == Some(r.retry)
    requires OptDeadlines(m) == Some(r.deadlines) && OptReader(m) == Some(Canon(r).reader)
    requires OptUInt(Get(m, MinLength)) == Some(r.minLength) && OptUInt(Get(m, MaxLength)) == Some(r.maxLength)
    requires OptTexts(Get(m, Artifacts)) == Some(r.artifacts) && OptText(Get(m, PromptId)) == Some(r.promptId)
    ensures ParseSecret(m, KindToken(r.kind)) == if r.kind.ChangePin? then Err(BadEnum) else Ok(Canon(r))
  {
    NumberBack(r.minLength);
    NumberBack(r.maxLength);
  }

  lemma SecretBack(m: Fields, r: Request)
    requires Matches(m, r) && r.RequestSecret?
    ensures ParseSecret(m, KindToken(r.kind)) == if r.kind.ChangePin? then Err(BadEnum) else Ok(Canon(r))
  {
    DisplayBack(m, r.display);
    RetryBack(m, r);
    ReaderBack(m, r);
    BoundsBack(m, r);
    SecretFromParts(m, r);
  }

  lemma LengthsBack(m: Fields, r: Request)
    requires Matches(m, r) && r.RequestSecrets?
    ensures OptUInt(Get(m, PrimaryMinLength)) == Some(r.primaryMin)
    ensures OptUInt(Get(m, PrimaryMaxLength)) == Some(r.primaryMax)
    ensures OptUInt(Get(m, NewMinLength)) == Some(r.newMin) && OptUInt(Get(m, NewMaxLength)) == Some(r.newMax)
    ensures OptText(Get(m, PromptId)) == Some(r.promptId) && OptUInt(Get(m, DeadlineMs)) == Some(r.deadline)
  {
  }

  lemma SecretsBack(m: Fields, r: Request)
    requires Matches(m, r) && r.RequestSecrets?
    ensures ParseSecrets(m, r.flow) == Ok(r)
  {
    DisplayBack(m, r.display);
    LengthsBack(m, r);
    NumberBack(r.primaryMin);
    NumberBack(r.primaryMax);
    NumberBack(r.newMin);
    NumberBack(r.newMax);
    NumberBack(r.deadline);
  }

  lemma ConfirmBack(m: Fields, r: Request)
    requires Matches(m, r) && r.ConfirmAction?
    ensures ParseConfirm(m, r.flow) == Ok(r)
  {
  }

  predicate SingleSecretChangePin(r: Request) {
    r.RequestSecret? && r.kind.ChangePin?
  }

  /** Past the version check to the tag: a printed request is parsed by its own arm. */
  lemma TagBack(m: Fields, tag: string)
    requires Get(m, T) == Some(Text(tag)) && Get(m, V) == Some(UInt(PROTOCOL_VERSION))
    ensures ParseFields(m) == ParseTagged(m, tag)
  {
  }

  lemma MatchesParse(m: Fields, r: Request)
    requires Matches(m, r)
    ensures ParseFields(m) == if SingleSecretChangePin(r) then Err(BadEnum) else Ok(Canon(r))
  {
    assert Get(m, Kind) == Says(r, Kind);
    match r
    case RequestSecret(_, _, _, _, _, _, _, _, _) =>
      TagBack(m, "RequestSecret");
      SecretBack(m, r);
    case CancelCurrent(id) =>
      TagBack(m, "CancelCurrent");
    case RequestSecrets(_, _, _, _, _, _, _, _) =>
      TagBack(m, "RequestSecrets");
      SecretsBack(m, r);
    case ConfirmAction(_, _, _) =>
      TagBack(m, "ConfirmAction");
      ConfirmBack(m, r);
    case Reset => TagBack(m, "Reset");
  }

  lemma PrintMatches(r: Request)
    ensures Matches(Print(r), r)
  {
    forall k
      ensures Get(Print(r), k) == Says(r, k)
    {
      PrintSays(r, k);
    }
  }

  /** Every request printed and parsed is that request, "unknown" interface aside; the
      one exception is a single-secret request for a PIN change, which is refused. */
  lemma RoundTrip(r: Request)
    ensures Parse(Some(Map(Print(r)))) == if SingleSecretChangePin(r) then Err(BadEnum) else Ok(Canon(r))
  {
    PrintMatches(r);
    MatchesParse(Print(r), r);
  }

  /** A request and what it reads as are printed alike. */
  lemma PrintCanon(r: Request)
    ensures Print(Canon(r)) == Print(r) && Canon(Canon(r)) == Canon(r)
  {
  }

  lemma SameFields(m: Fields, n: Fields)
    requires forall k {:trigger Get(m, k)} :: Get(m, k) == Get(n, k)
    ensures m == n
  {
    forall k
      ensures (k in m <==> k in n) && (k in m ==> m[k] == n[k])
    {
      assert Get(m, k) == Get(n, k);
    }
  }

  function AsPin(r: Request): Request
    requires r.RequestSecret?
  {
    r.(kind := Pin)
  }

  lemma KindAside(r: Request, q: Request, k: Key)
    requires SingleSecretChangePin(r) && SingleSecretChangePin(q) && Says(r, k) == Says(q, k)
    ensures Says(AsPin(r), k) == Says(AsPin(q), k)
  {
  }

  /** Two requests are printed alike exactly when they read alike, the single-secret PIN
      change included, which no parser accepts. */
  lemma PrintedAlike(r: Request, q: Request)
    ensures Print(r) == Print(q) <==> Canon(r) == Canon(q)
  {
    PrintCanon(r);
    PrintCanon(q);
    RoundTrip(r);
    RoundTrip(q);
    if Print(r) == Print(q) && SingleSecretChangePin(r) && SingleSecretChangePin(q) {
      forall k
        ensures Get(Print(AsPin(r)), k) == Get(Print(AsPin(q)), k)
      {
        PrintSays(r, k);
        PrintSays(q, k);
        PrintSays(AsPin(r), k);
        PrintSays(AsPin(q), k);
        KindAside(r, q, k);
      }
      SameFields(Print(AsPin(r)), Print(AsPin(q)));
      RoundTrip(AsPin(r));
      RoundTrip(AsPin(q));
    }
  }

  /** The parser never accepts a single-secret PIN change. */
  lemma AcceptedKinds(m: Fields)
    requires ParseFields(m).Ok?
    ensures !SingleSecretChangePin(ParseFields(m).value)
  {
  }

  /** Whatever was accepted, its printed form is accepted again and reads as one fixed
      request: printing and parsing once more changes nothing. */
  lemma AcceptedHasCanonicalForm(m: Fields)
    requires ParseFields(m).Ok?
    ensures var r := ParseFields(m).value;
            && ParseFields(Print(r)) == Ok(Canon(r))
            && Print(Canon(r)) == Print(r) && ParseFields(Print(Canon(r))) == Ok(Canon(r))
  {
    var r := ParseFields(m).value;
    AcceptedKinds(m);
    RoundTrip(r);
    PrintCanon(r);
    assert Parse(Some(Map(Print(r)))) == ParseFields(Print(r));
  }

  // ---- versions and unknown keys ----------------------------------------------------------------

  /** A newer protocol, at the full width of the announced number and whatever else the
      message holds, is refused as such, and nothing else is. */
  lemma NewerIsRefused(m: Fields)
    ensures Parse(Some(Map(m))) == Err(UnsupportedVersion)
            <==> V in m && m[V].UInt? && m[V].n > 2
  {
  }

  ghost predicate SameKnown(m: Fields, n: Fields) {
    forall k: Key {:trigger Get(m, k)} | !k.Unknown? :: Get(m, k) == Get(n, k)
  }

  lemma SameTagged(m: Fields, n: Fields, tag: string)
    requires SameKnown(m, n)
    ensures ParseTagged(m, tag) == ParseTagged(n, tag)
  {
    assert Get(m, Kind) == Get(n, Kind);
  }

  /** Only keys this build knows are read. */
  lemma OnlyKnownKeys(m: Fields, n: Fields)
    requires SameKnown(m, n)
    ensures Parse(Some(Map(m))) == Parse(Some(Map(n)))
  {
    assert Get(m, T) == Get(n, T) && Get(m, V) == Get(n, V);
    if T in m && m[T].Text? {
      SameTagged(m, n, m[T].s);
    }
  }

  /** Adding keys this build does not know never changes how a message is read. */
  lemma UnknownKeysIgnored(m: Fields, extra: Fields)
    requires forall k | k in extra :: k.Unknown?
    ensures Parse(Some(Map(m + extra))) == Parse(Some(Map(m)))
  {
    OnlyKnownKeys(m + extra, m);
  }
}
