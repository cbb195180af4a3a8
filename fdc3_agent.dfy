/**
 * The stub FDC3 desktop agent the platform hands resources to. It keeps no
 * state: it derives an app identifier from the raise-intent target and
 * answers `findInstances` with one synthetic instance.
 */
module Fdc3Agent {
  import opened Wrappers
  import opened Fdc3Types
  import opened Tools

  /**
   * The `appOrName` argument: absent, a string, or an object whose `appId`
   * (and `instanceId`) may be missing. Only `appId` and `instanceId` are
   * kept of an object.
   */
  datatype AppArg = NoArg | NameArg(name: string) | ObjectArg(appId: Option<string>, instanceId: Option<string>)

  /** `ResolveError.NoAppsFound`. */
  const NoAppsFound: string := "NoAppsFound"

  /** An object argument whose `appId` is truthy, i.e. present and not "". */
  predicate HasAppId(a: AppArg) {
    a.ObjectArg? && a.appId.Some? && a.appId.value != ""
  }

  /**
   * `_deriveAppIdentifier`: an object with a truthy `appId` is the identifier
   * itself; a non-empty string names the app; anything else derives nothing.
   */
  function DeriveAppIdentifier(a: AppArg): (r: Option<AppIdentifier>)
    ensures HasAppId(a) ==> r == Some(AppIdentifier(a.appId.value, a.instanceId))
    ensures a.NameArg? && a.name != "" ==> r == Some(App(a.name))
    ensures r.None? <==> a.NoArg? || (a.NameArg? && a.name == "") || (a.ObjectArg? && !HasAppId(a))
    ensures r.Some? ==> r.value.appId != ""
  {
    if HasAppId(a) then Some(AppIdentifier(a.appId.value, a.instanceId))
    else if a.NameArg? && a.name != "" then Some(App(a.name))
    else None
  }

  /**
   * `raiseIntent`: rejects with NoAppsFound when no identifier can be
   * derived. Otherwise the promise resolves with no value; the success value
   * here is the identifier the agent logs (intent and context are only
   * logged).
   */
  function RaiseIntent(intent: string, context: Context, a: AppArg): (r: Result<AppIdentifier, string>)
    ensures r.Failure? <==> DeriveAppIdentifier(a).None?
    ensures r.Failure? ==> r.error == NoAppsFound
    ensures r.Success? ==> Some(r.value) == DeriveAppIdentifier(a)
  {
    var app := DeriveAppIdentifier(a);
    if app.None? then Failure(NoAppsFound) else Success(app.value)
  }

  /**
   * `findInstances`: one instance of the requested app; `uuid` stands for
   * `window.crypto?.randomUUID()`, absent where the browser has no crypto.
   */
  function FindInstances(app: AppIdentifier, uuid: Option<string>): (r: seq<AppIdentifier>)
    ensures |r| == 1 && r[0].appId == app.appId && r[0].instanceId == uuid
  {
    [AppIdentifier(app.appId, uuid)]
  }

  /** The identifier as an argument: the object form. */
  function AsArg(app: AppIdentifier): AppArg {
    ObjectArg(Some(app.appId), app.instanceId)
  }

  /** An identifier with a non-empty app id passes through derivation unchanged. */
  lemma DeriveIdentity(app: AppIdentifier)
    requires app.appId != ""
    ensures DeriveAppIdentifier(AsArg(app)) == Some(app)
    ensures DeriveAppIdentifier(NameArg(app.appId)) == Some(App(app.appId))
  {
  }

  /** Derivation is idempotent: deriving from a derived identifier gives it back. */
  lemma DeriveIdempotent(a: AppArg)
    ensures DeriveAppIdentifier(a).Some? ==>
      DeriveAppIdentifier(AsArg(DeriveAppIdentifier(a).value)) == DeriveAppIdentifier(a)
  {
  }

  /** An instance found for an identifier derives back to that app. */
  lemma FoundInstanceResolves(app: AppIdentifier, uuid: Option<string>)
    requires app.appId != ""
    ensures RaiseIntent("", Clear, AsArg(FindInstances(app, uuid)[0])) == Success(AppIdentifier(app.appId, uuid))
  {
  }

  /**
   * Every successful tool result targets an app the agent resolves: raising
   * the resource's intent at its target never fails with NoAppsFound. One
   * lemma per tool.
   */
  predicate TargetResolves(r: ToolResult)
    requires IsSuccess(r)
  {
    RaiseIntent(ResourceOf(r).intent, ResourceOf(r).context, AsArg(ResourceOf(r).target)).Success?
  }

  lemma TradesTargetResolves(c: string)
    requires IsSuccess(GetTrades(c))
    ensures ResourceOf(GetTrades(c)).target == App(BlotterApp) && TargetResolves(GetTrades(c))
  {
    var i :| IsFirstMatch(i, Sanitize(c));
  }

  lemma NewsTargetResolves(c: string)
    requires IsSuccess(GetNews(c))
    ensures ResourceOf(GetNews(c)).target == App(NewsApp) && TargetResolves(GetNews(c))
  {
    var i :| IsFirstMatch(i, Sanitize(c));
  }

  lemma ClearTargetResolves()
    ensures ResourceOf(ClearFilters()).target == App(AllApps) && TargetResolves(ClearFilters())
  {
  }

  lemma OrderTargetResolves(a: OrderArgs)
    requires IsSuccess(SubmitOrder(a))
    ensures ResourceOf(SubmitOrder(a)).target == App(OrderTicketApp) && TargetResolves(SubmitOrder(a))
  {
  }

  lemma QuoteTargetResolves(a: QuoteArgs)
    requires IsSuccess(RequestQuote(a))
    ensures ResourceOf(RequestQuote(a)).target == App(RfqApp) && TargetResolves(RequestQuote(a))
  {
  }

  /** The four ways to derive nothing: no argument, "", an object without an app id, an object with "" as app id. */
  lemma NothingDerived(instanceId: Option<string>)
    ensures RaiseIntent("", Clear, NoArg) == Failure(NoAppsFound)
    ensures RaiseIntent("", Clear, NameArg("")) == Failure(NoAppsFound)
    ensures RaiseIntent("", Clear, ObjectArg(None, instanceId)) == Failure(NoAppsFound)
    ensures RaiseIntent("", Clear, ObjectArg(Some(""), instanceId)) == Failure(NoAppsFound)
  {
  }
}
