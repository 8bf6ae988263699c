/**
 * connector.Connect: turn a managed resource into an external client by
 * tracking ProviderConfig usage, reading the ProviderConfig, extracting its
 * credentials and constructing the service. The four collaborators are
 * function-valued fields; the `ran` trace records each collaborator call
 * Connect made, in order, with the outcome it got.
 */
module Connector {
  import opened Results
  import opened DeckTypes
  import opened DeckErrors
  import opened External

  /** The collaborator calls of Connect. */
  datatype Step = TrackUsage | GetProviderConfig | ExtractCredentials | NewService

  /** The order in which Connect calls its collaborators. */
  const Pipeline: seq<Step> := [TrackUsage, GetProviderConfig, ExtractCredentials, NewService]

  /** The message Connect wraps around a failure of the given step. */
  function Context(s: Step): string {
    match s
    case TrackUsage => ErrTrackPCUsage
    case GetProviderConfig => ErrGetPC
    case ExtractCredentials => ErrGetCreds
    case NewService => ErrNewClient
  }

  /** A collaborator call and what it returned. */
  datatype Call = Call(step: Step, outcome: Outcome<string>)

  /**
   * The connector's collaborators: the usage tracker, the ProviderConfig
   * lookup by name, the credential extractor and newServiceFn. Each either
   * succeeds or fails with a cause.
   */
  datatype Connector<S> = Connector(
    track: Managed -> Outcome<string>,
    getProviderConfig: string -> Result<ProviderConfig, string>,
    extractCredentials: ProviderCredentials -> Result<seq<byte>, string>,
    newService: seq<byte> -> Result<S, string>)

  /** The outcome of Connect and the collaborator calls it made. */
  datatype Connection<S> = Connection(result: Result<Client<S>, Error>, ran: seq<Call>)

  /** The service newNoOpService builds: it does nothing. */
  datatype NoOpService = NoOpService

  /** newNoOpService ignores the credentials and never fails. */
  function NewNoOpService(creds: seq<byte>): (r: Result<NoOpService, string>)
    ensures r.Ok? && r.value == NoOpService
  {
    Ok(NoOpService)
  }

  /** The connector Setup registers for Decks, around the given tracker, getter and extractor. */
  function DeckConnector(
    track: Managed -> Outcome<string>,
    getProviderConfig: string -> Result<ProviderConfig, string>,
    extractCredentials: ProviderCredentials -> Result<seq<byte>, string>): (c: Connector<NoOpService>)
    ensures c.track == track && c.getProviderConfig == getProviderConfig
    ensures c.extractCredentials == extractCredentials
    ensures forall creds :: c.newService(creds) == Ok(NoOpService)
  {
    Connector(track, getProviderConfig, extractCredentials, NewNoOpService)
  }

  /** The trace of a run that stopped at step `k` (zero-based) with the given outcome. */
  function Stopped(k: nat, last: Outcome<string>): (ran: seq<Call>)
    requires k < |Pipeline|
    ensures |ran| == k + 1
    ensures forall i :: 0 <= i < |ran| ==> ran[i].step == Pipeline[i]
    ensures forall i :: 0 <= i < k ==> ran[i].outcome.Pass?
    ensures ran[k].outcome == last
  {
    seq(k + 1, i requires 0 <= i <= k => Call(Pipeline[i], if i == k then last else Pass))
  }

  function Connect<S>(c: Connector<S>, mg: Managed): (r: Connection<S>)
    // A resource of another kind is rejected before any collaborator is called.
    ensures !mg.DeckResource? ==> r.result == Err(NotDeck) && r.ran == []
    // The collaborators are called in the fixed order, and nothing runs after a failure.
    ensures mg.DeckResource? ==> 1 <= |r.ran| <= |Pipeline|
    ensures forall k :: 0 <= k < |r.ran| ==> r.ran[k].step == Pipeline[k]
    ensures forall k :: 0 <= k < |r.ran| - 1 ==> r.ran[k].outcome.Pass?
    // Each call got what its collaborator returns for the values before it.
    ensures |r.ran| > 0 ==> r.ran[0].outcome == c.track(mg)
    ensures |r.ran| > 1 ==> r.ran[1].outcome == c.getProviderConfig(mg.deck.spec.providerConfigRef).ToOutcome()
    ensures |r.ran| > 2 ==>
      r.ran[2].outcome == c.extractCredentials(ProviderConfigOf(c, mg.deck).credentials).ToOutcome()
    ensures |r.ran| > 3 ==> r.ran[3].outcome == c.newService(ExtractedCredentials(c, mg.deck)).ToOutcome()
    // The first failure is the one reported, wrapped with its own step's message.
    ensures r.result.Err? && mg.DeckResource? ==>
      && r.ran[|r.ran| - 1].outcome.Fail?
      && r.result.error == Wrapped(Context(r.ran[|r.ran| - 1].step), r.ran[|r.ran| - 1].outcome.error)
    // Success exactly when every step succeeded; the client holds the service built from the credentials.
    ensures r.result.Ok? <==> |r.ran| == |Pipeline| && r.ran[3].outcome.Pass?
    ensures r.result.Ok? ==> r.result.value == Client(c.newService(ExtractedCredentials(c, mg.deck)).value)
  {
    match mg
    case OtherResource(_) => Connection(Err(NotDeck), [])
    case DeckResource(d) =>
      match c.track(mg)
      case Fail(e) => Connection(Err(Wrapped(ErrTrackPCUsage, e)), Stopped(0, Fail(e)))
      case Pass =>
        match c.getProviderConfig(d.spec.providerConfigRef)
        case Err(e) => Connection(Err(Wrapped(ErrGetPC, e)), Stopped(1, Fail(e)))
        case Ok(pc) =>
          match c.extractCredentials(pc.credentials)
          case Err(e) => Connection(Err(Wrapped(ErrGetCreds, e)), Stopped(2, Fail(e)))
          case Ok(data) =>
            match c.newService(data)
            case Err(e) => Connection(Err(Wrapped(ErrNewClient, e)), Stopped(3, Fail(e)))
            case Ok(svc) => Connection(Ok(Client(svc)), Stopped(3, Pass))
  }

  /** The ProviderConfig Connect reads, when the lookup succeeds. */
  function ProviderConfigOf<S>(c: Connector<S>, d: Deck): ProviderConfig
    requires c.getProviderConfig(d.spec.providerConfigRef).Ok?
  {
    c.getProviderConfig(d.spec.providerConfigRef).value
  }

  /** The credential bytes Connect hands to newServiceFn, when the lookups before it succeed. */
  function ExtractedCredentials<S>(c: Connector<S>, d: Deck): seq<byte> {
    match c.getProviderConfig(d.spec.providerConfigRef)
    case Err(_) => []
    case Ok(pc) =>
      match c.extractCredentials(pc.credentials)
      case Err(_) => []
      case Ok(data) => data
  }

  // ---------------------------------------------------------------------------
  // Properties

  /** The four wrap messages differ, so a failure's message names the step that failed. */
  lemma ContextInjective(s: Step, t: Step)
    ensures Context(s) == Context(t) <==> s == t
  {
    if s != t {
      var a, b := Context(s), Context(t);
      assert a[7] != b[7] || a[11] != b[11] || |a| != |b|;
    }
  }

  /**
   * The text of a wrapped failure determines its step and its cause: every
   * wrap message is longer than 11 characters, and any two differ at index 7
   * or 11.
   */
  lemma WrappedTextIdentifiesStep(s: Step, t: Step, a: string, b: string)
    requires Wrapped(Context(s), a).Message() == Wrapped(Context(t), b).Message()
    ensures s == t && a == b
  {
    var text := Wrapped(Context(s), a).Message();
    assert text[..|Context(s)|][7] == text[7] && text[..|Context(s)|][11] == text[11];
    assert text[..|Context(t)|][7] == text[7] && text[..|Context(t)|][11] == text[11];
    assert s == t;
  }

  /**
   * A failed connection's error text names the step that failed: two Decks
   * whose connections fail with the same text stopped at the same step, with
   * the same cause.
   */
  lemma FailureIdentifiesStep<S, T>(c: Connector<S>, d: Connector<T>, m: Managed, n: Managed)
    requires m.DeckResource? && n.DeckResource?
    requires Connect(c, m).result.Err? && Connect(d, n).result.Err?
    requires Connect(c, m).result.error.Message() == Connect(d, n).result.error.Message()
    ensures |Connect(c, m).ran| == |Connect(d, n).ran|
    ensures Connect(c, m).ran[|Connect(c, m).ran| - 1].step == Connect(d, n).ran[|Connect(d, n).ran| - 1].step
    ensures Connect(c, m).result.error.cause == Connect(d, n).result.error.cause
  {
    var p, q := Connect(c, m).ran, Connect(d, n).ran;
    WrappedTextIdentifiesStep(p[|p| - 1].step, q[|q| - 1].step, p[|p| - 1].outcome.error, q[|q| - 1].outcome.error);
  }

  /**
   * With newNoOpService, Connect never fails at service construction: it
   * succeeds exactly when tracking, the lookup and the extraction succeed.
   */
  lemma NoOpConnectFailsOnlyBeforeService(
    track: Managed -> Outcome<string>,
    getProviderConfig: string -> Result<ProviderConfig, string>,
    extractCredentials: ProviderCredentials -> Result<seq<byte>, string>,
    d: Deck)
    ensures var r := Connect(DeckConnector(track, getProviderConfig, extractCredentials), DeckResource(d));
      && (r.result.Err? ==> r.result.error.context != ErrNewClient)
      && (r.result.Ok? <==>
            && track(DeckResource(d)).Pass?
            && getProviderConfig(d.spec.providerConfigRef).Ok?
            && extractCredentials(getProviderConfig(d.spec.providerConfigRef).value.credentials).Ok?)
  {
    var r := Connect(DeckConnector(track, getProviderConfig, extractCredentials), DeckResource(d));
    if r.result.Err? {
      ContextInjective(r.ran[|r.ran| - 1].step, NewService);
    }
  }
}
