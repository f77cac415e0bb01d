/**
 * The flow guard: three flags that record how far the user has come
 * (purpose given, report generated, paid), kept in local storage, and the rule
 * that sends every page under `/app/` to the one page the flags allow.
 */
module UserFlowContext {

  import opened Wrappers
  import opened Storage

  /** The three guarded pages. */
  datatype Route = Report | Payment | Dashboard

  const AppPrefix: string := "/app/"
  const ReportPath: string := "/app/report"
  const PaymentPath: string := "/app/payment"
  const DashboardPath: string := "/app/dashboard"

  function RoutePath(r: Route): (p: string)
    ensures AppPrefix <= p
  {
    match r
    case Report => ReportPath
    case Payment => PaymentPath
    case Dashboard => DashboardPath
  }

  /** Only pathnames that start with `/app/` are guarded; `/app` itself is not. */
  predicate IsGuarded(pathname: string)
    ensures IsGuarded(pathname) <==> |pathname| >= 5 && pathname[..5] == "/app/"
    ensures pathname == "/app" ==> !IsGuarded(pathname)
  {
    AppPrefix <= pathname
  }

  /**
   * The one page the flags allow. The three cases cover every flag triple and
   * exclude each other; `hasPurpose` plays no part.
   */
  function Canonical(f: FlowState): (r: Route)
    ensures r == Dashboard <==> f.hasPaid && f.hasGeneratedReport
    ensures r == Payment <==> f.hasGeneratedReport && !f.hasPaid
    ensures r == Report <==> !f.hasGeneratedReport
  {
    if f.hasPaid && f.hasGeneratedReport then Dashboard
    else if f.hasGeneratedReport then Payment
    else Report
  }

  /**
   * The redirect the guard performs for `pathname`, or None when it leaves the
   * page alone: the pathname test, then the three rules and the two defensive
   * checks in the order the effect tries them, each one ending the evaluation.
   * What it comes to: redirect to the canonical page exactly when a guarded
   * pathname is not that page.
   */
  function NextRoute(f: FlowState, pathname: string): (r: Option<Route>)
    ensures r == if IsGuarded(pathname) && pathname != RoutePath(Canonical(f))
                 then Some(Canonical(f)) else None
  {
    if !IsGuarded(pathname) then None
    else if f.hasPaid && f.hasGeneratedReport && pathname != DashboardPath then Some(Dashboard)
    else if f.hasGeneratedReport && !f.hasPaid && pathname != PaymentPath then Some(Payment)
    else if !f.hasGeneratedReport && pathname != ReportPath then Some(Report)
    else if pathname == PaymentPath && !f.hasGeneratedReport then Some(Report)
    else if pathname == DashboardPath && (!f.hasPaid || !f.hasGeneratedReport) then
      if !f.hasGeneratedReport then Some(Report) else Some(Payment)
    else None
  }

  /** The same decision with the two defensive checks taken out. */
  function FirstThreeRules(f: FlowState, pathname: string): Option<Route> {
    if !IsGuarded(pathname) then None
    else if f.hasPaid && f.hasGeneratedReport && pathname != DashboardPath then Some(Dashboard)
    else if f.hasGeneratedReport && !f.hasPaid && pathname != PaymentPath then Some(Payment)
    else if !f.hasGeneratedReport && pathname != ReportPath then Some(Report)
    else None
  }

  lemma RoutePathInjective(a: Route, b: Route)
    ensures RoutePath(a) == RoutePath(b) <==> a == b
  {
  }

  /** Pathnames outside `/app/`, `/app` among them, never cause a redirect. */
  lemma UnguardedPathsStay(f: FlowState, pathname: string)
    ensures !IsGuarded(pathname) ==> NextRoute(f, pathname) == None
    ensures NextRoute(f, "/app") == None
  {
  }

  /** Under `/app/`: no redirect exactly when the pathname is the canonical page, and any redirect goes there. */
  lemma RedirectIffNotCanonical(f: FlowState, pathname: string)
    requires IsGuarded(pathname)
    ensures NextRoute(f, pathname) == None <==> pathname == RoutePath(Canonical(f))
    ensures NextRoute(f, pathname) != None ==> NextRoute(f, pathname) == Some(Canonical(f))
  {
  }

  /** Evaluating the guard again on the page it redirected to redirects no further. */
  lemma RedirectIdempotent(f: FlowState, pathname: string)
    ensures NextRoute(f, pathname).Some? ==> NextRoute(f, RoutePath(NextRoute(f, pathname).value)) == None
  {
  }

  /**
   * The two defensive checks never decide anything: every case they test has
   * already been redirected by one of the first three rules.
   */
  lemma DefensiveChecksUnreachable(f: FlowState, pathname: string)
    ensures NextRoute(f, pathname) == FirstThreeRules(f, pathname)
    ensures pathname == PaymentPath && !f.hasGeneratedReport ==> FirstThreeRules(f, pathname) == Some(Report)
    ensures pathname == DashboardPath && f.hasGeneratedReport && !f.hasPaid ==> FirstThreeRules(f, pathname) == Some(Payment)
    ensures pathname == DashboardPath && !f.hasGeneratedReport ==> FirstThreeRules(f, pathname) == Some(Report)
  {
  }

  /** `hasPurpose` never changes the decision. */
  lemma PurposeIgnored(f: FlowState, pathname: string, purpose: bool)
    ensures NextRoute(f.(hasPurpose := purpose), pathname) == NextRoute(f, pathname)
  {
  }

  /** The three deep-linking scenarios: each lands on the page the flags allow. */
  lemma DeepLinkScenarios(purpose: bool)
    ensures NextRoute(FlowState(purpose, false, false), DashboardPath) == Some(Report)
    ensures NextRoute(FlowState(purpose, false, true), DashboardPath) == Some(Payment)
    ensures NextRoute(FlowState(purpose, true, true), ReportPath) == Some(Dashboard)
  {
  }

  /**
   * The flow context provider: the three flag states, and the local storage they
   * are persisted to and loaded from.
   */
  class UserFlowProvider {
    var hasPurpose: bool
    var hasPaid: bool
    var hasGeneratedReport: bool
    var storage: Store

    function Flags(): FlowState
      reads this
    {
      FlowState(hasPurpose, hasPaid, hasGeneratedReport)
    }

    /**
     * Storage agrees with the flags: the snapshot holds the current triple, and
     * when it has been removed the flags are all false.
     */
    ghost predicate Valid()
      reads this
    {
      if FlowStateKey in storage then storage[FlowStateKey] == FlowEntry(Flags())
      else Flags() == AllFalse
    }

    /** Each flag starts from the stored snapshot, or false; then the persist effect runs once on mount. */
    constructor (initial: Store)
      ensures Flags() == LoadFlags(initial)
      ensures storage == initial[FlowStateKey := FlowEntry(Flags())]
      ensures Valid()
    {
      var stored := if FlowStateKey in initial && initial[FlowStateKey].FlowEntry?
                    then Some(initial[FlowStateKey].flags) else None;
      hasPurpose := if stored.Some? then stored.value.hasPurpose else false;
      hasPaid := if stored.Some? then stored.value.hasPaid else false;
      hasGeneratedReport := if stored.Some? then stored.value.hasGeneratedReport else false;
      storage := initial;
      new;
      Persist();
    }

    /** Reloading from storage gives back the current flags. */
    lemma LoadRestoresFlags()
      requires Valid()
      ensures LoadFlags(storage) == Flags()
    {
    }

    /** The persist effect: the whole snapshot is written under `user_flow_state`. */
    method Persist()
      modifies this`storage
      ensures storage == old(storage)[FlowStateKey := FlowEntry(Flags())]
    {
      storage := storage[FlowStateKey := FlowEntry(FlowState(hasPurpose, hasPaid, hasGeneratedReport))];
    }

    /** Setting a flag persists the snapshot when, and only when, its value changes. */
    method SetPurpose(value: bool)
      requires Valid()
      modifies this
      ensures Valid()
      ensures Flags() == old(Flags()).(hasPurpose := value)
      ensures storage == if value == old(hasPurpose) then old(storage)
                         else old(storage)[FlowStateKey := FlowEntry(Flags())]
    {
      if value != hasPurpose {
        hasPurpose := value;
        Persist();
      }
    }

    method SetHasPaid(value: bool)
      requires Valid()
      modifies this
      ensures Valid()
      ensures Flags() == old(Flags()).(hasPaid := value)
      ensures storage == if value == old(hasPaid) then old(storage)
                         else old(storage)[FlowStateKey := FlowEntry(Flags())]
    {
      if value != hasPaid {
        hasPaid := value;
        Persist();
      }
    }

    method SetHasGeneratedReport(value: bool)
      requires Valid()
      modifies this
      ensures Valid()
      ensures Flags() == old(Flags()).(hasGeneratedReport := value)
      ensures storage == if value == old(hasGeneratedReport) then old(storage)
                         else old(storage)[FlowStateKey := FlowEntry(Flags())]
    {
      if value != hasGeneratedReport {
        hasGeneratedReport := value;
        Persist();
      }
    }

    /**
     * All flags false; the snapshot and the cached report data are removed and
     * every other entry, `user` among them, is kept.
     */
    method ResetFlow()
      modifies this
      ensures Valid()
      ensures Flags() == AllFalse
      ensures storage == old(storage) - {FlowStateKey, ReportDataKey}
    {
      hasPurpose, hasPaid, hasGeneratedReport := false, false, false;
      storage := storage - {FlowStateKey};
      storage := storage - {ReportDataKey};
    }

    /**
     * The redirect effect for the current pathname, as the list of `navigate`
     * calls it makes: at most one, and exactly the one the guard decides.
     */
    method RedirectEffect(pathname: string) returns (navigations: seq<string>)
      ensures |navigations| <= 1
      ensures navigations == match NextRoute(Flags(), pathname)
                             case None => []
                             case Some(r) => [RoutePath(r)]
    {
      navigations := [];
      if !(AppPrefix <= pathname) {
        return;
      }
      if hasPaid && hasGeneratedReport && pathname != DashboardPath {
        navigations := navigations + [DashboardPath];
        return;
      }
      if hasGeneratedReport && !hasPaid && pathname != PaymentPath {
        navigations := navigations + [PaymentPath];
        return;
      }
      if !hasGeneratedReport && pathname != ReportPath {
        navigations := navigations + [ReportPath];
        return;
      }
      if pathname == PaymentPath && !hasGeneratedReport {
        navigations := navigations + [ReportPath];
        return;
      }
      if pathname == DashboardPath && (!hasPaid || !hasGeneratedReport) {
        if !hasGeneratedReport {
          navigations := navigations + [ReportPath];
        } else {
          navigations := navigations + [PaymentPath];
        }
        return;
      }
    }
  }

  /** After a reset, loading from storage yields all flags false and other keys keep their entries. */
  lemma ResetThenLoad(store: Store, key: string)
    requires key != FlowStateKey && key != ReportDataKey
    ensures LoadFlags(store - {FlowStateKey, ReportDataKey}) == AllFalse
    ensures key in store ==> key in store - {FlowStateKey, ReportDataKey} && (store - {FlowStateKey, ReportDataKey})[key] == store[key]
  {
  }
}
