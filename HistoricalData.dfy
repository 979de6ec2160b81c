/**
 * The data-binding function of the historical-data import settings panel:
 * from the caller's flags and the import store's answers it derives the
 * displayed response, its status, and which of the three callbacks
 * (`onImportStarted`, `startStatusCheckInterval`, `onImportFinished`) fire.
 *
 * The store is a record of total functions keyed by the query arguments, so
 * the requirement the mapper chooses is visibly the key of the status, error
 * and resolving queries. `formatParams` is not part of this model: its result
 * is the `params` input. `getStatus` is an uninterpreted function argument.
 */
module HistoricalData {
  import opened Wrappers

  /** `SECOND` of the data framework, in milliseconds. */
  const Second: int := 1000

  /** A freshness/timeout policy for the status query. */
  datatype Requirement = Requirement(freshness: int, timeout: int)

  /** The tight policy used while an import is in progress. */
  const InProgressRequirement: Requirement := Requirement(3 * Second, 3 * Second)

  /** The date/period/skip parameters built by `formatParams`. */
  type Params = map<string, string>

  /** The arguments a store query is keyed by; the timestamp restarts reads for a new import. */
  datatype QueryArgs =
    | ByRequirement(requirement: Requirement, timestamp: Option<int>)
    | ByParams(params: Params, timestamp: Option<int>)

  /** The counts available before any import starts. */
  datatype Totals = Totals(customers: Option<int>, orders: Option<int>)

  /** `{ imported, total }` of one resource; a missing field is `None`. */
  datatype Progress = Progress(imported: Option<int>, total: Option<int>)

  /** The answer of `getImportStatus`; `isImporting` may be absent. */
  datatype ImportStatus = ImportStatus(
    customers: Option<Progress>,
    orders: Option<Progress>,
    importedFrom: Option<string>,
    isImporting: Option<bool>)

  /**
   * The import store's selectors. `getImportError` answers whether an error
   * is recorded (the `Boolean(...)` of the error value); `isResolving` is the
   * probe for `getImportStatus` with the given arguments.
   */
  datatype Store = Store(
    getImportTotals: QueryArgs -> Totals,
    getImportStatus: QueryArgs -> ImportStatus,
    getImportError: QueryArgs -> bool,
    isResolving: QueryArgs -> bool)

  /** The component's props read by the mapper; `defaultRequirement` is `DEFAULT_REQUIREMENT`. */
  datatype Props = Props(
    activeImport: bool,
    inProgress: bool,
    lastImportStartTimestamp: Option<int>,
    params: Params,
    defaultRequirement: Requirement)

  /**
   * The response record. Its shape depends on `activeImport`: an inactive
   * import has no progress fields and no `inProgress`.
   */
  datatype Response =
    | Inactive(customersTotal: Option<int>, isError: bool, ordersTotal: Option<int>)
    | Active(
        customersProgress: Option<int>,
        customersTotal: Option<int>,
        inProgress: bool,
        isError: bool,
        ordersProgress: Option<int>,
        ordersTotal: Option<int>)

  /** The callbacks the mapper may invoke. */
  datatype Callback = ImportStarted | StartStatusCheckInterval | ImportFinished

  /** Which callbacks fire in one evaluation. */
  datatype Effects = Effects(started: bool, interval: bool, finished: bool)

  /** The mapper's result: `{ ...response, importDate, status }` and the callbacks that fire. */
  datatype Output = Output(
    response: Response,
    importDate: Option<string>,
    status: string,
    effects: Effects)

  /** A JavaScript timestamp is truthy unless absent or 0. */
  predicate IsRecorded(timestamp: Option<int>) {
    timestamp.Some? && timestamp.value != 0
  }

  function ChooseRequirement(props: Props): Requirement {
    if props.inProgress then InProgressRequirement else props.defaultRequirement
  }

  function StatusArgs(props: Props): QueryArgs {
    ByRequirement(ChooseRequirement(props), props.lastImportStartTimestamp)
  }

  function ParamsArgs(props: Props): QueryArgs {
    ByParams(props.params, props.lastImportStartTimestamp)
  }

  function ProgressOf(p: Option<Progress>): Progress {
    p.GetOr(Progress(None, None))
  }

  /** One resource is fully drained: `imported === total && total > 0`. */
  predicate Drained(p: Progress) {
    p.total.Some? && p.total.value > 0 && p.imported == p.total
  }

  function IsError(props: Props, store: Store): bool {
    if store.isResolving(StatusArgs(props)) then false
    else store.getImportError(StatusArgs(props)) || store.getImportError(ParamsArgs(props))
  }

  function HasImportStarted(props: Props, store: Store): bool {
    var status := store.getImportStatus(StatusArgs(props));
    !IsRecorded(props.lastImportStartTimestamp) && !store.isResolving(StatusArgs(props))
      && !props.inProgress && status.isImporting == Some(true)
  }

  function HasImportFinished(props: Props, store: Store): bool {
    var status := store.getImportStatus(StatusArgs(props));
    !store.isResolving(StatusArgs(props)) && props.inProgress && status.isImporting == Some(false)
      && (Drained(ProgressOf(status.customers)) || Drained(ProgressOf(status.orders)))
  }

  /** `(activeImport || isImporting) && inProgress`. */
  function ActivateInterval(props: Props, store: Store): bool {
    var status := store.getImportStatus(StatusArgs(props));
    (props.activeImport || status.isImporting == Some(true)) && props.inProgress
  }

  /** `isNil(total) ? fallback : total`. */
  function TotalOr(total: Option<int>, fallback: Option<int>): Option<int> {
    if total.None? then fallback else total
  }

  function BuildResponse(props: Props, store: Store): Response {
    var totals := store.getImportTotals(ParamsArgs(props));
    var status := store.getImportStatus(StatusArgs(props));
    var customers := ProgressOf(status.customers);
    var orders := ProgressOf(status.orders);
    var isError := IsError(props, store);
    if props.activeImport then
      Active(customers.imported, TotalOr(customers.total, totals.customers), props.inProgress,
             isError, orders.imported, TotalOr(orders.total, totals.orders))
    else
      Inactive(totals.customers, isError, totals.orders)
  }

  /** The callbacks that fire, in the order the mapper invokes them. */
  function Fired(e: Effects): (r: seq<Callback>)
    ensures ImportStarted in r <==> e.started
    ensures StartStatusCheckInterval in r <==> e.interval
    ensures ImportFinished in r <==> e.finished
    ensures forall i, j :: 0 <= i < j < |r| ==> CallOrder(r[i]) < CallOrder(r[j])
  {
    (if e.started then [ImportStarted] else [])
      + (if e.interval then [StartStatusCheckInterval] else [])
      + (if e.finished then [ImportFinished] else [])
  }

  /** Position of each callback in the mapper's body. */
  function CallOrder(c: Callback): nat {
    match c
    case ImportStarted => 0
    case StartStatusCheckInterval => 1
    case ImportFinished => 2
  }

  /** One evaluation of the mapper. */
  function Evaluate(props: Props, store: Store, getStatus: Response -> string): (r: Output)
    // the requirement keys the status query
    ensures props.inProgress ==> StatusArgs(props).requirement == Requirement(3000, 3000)
    ensures !props.inProgress ==> StatusArgs(props).requirement == props.defaultRequirement
    // errors are suppressed while the status query resolves
    ensures store.isResolving(StatusArgs(props)) ==> !r.response.isError
    ensures !store.isResolving(StatusArgs(props)) ==>
      (r.response.isError <==>
        store.getImportError(StatusArgs(props)) || store.getImportError(ParamsArgs(props)))
    // the started trigger
    ensures r.effects.started <==>
      && !IsRecorded(props.lastImportStartTimestamp)
      && !store.isResolving(StatusArgs(props))
      && !props.inProgress
      && store.getImportStatus(StatusArgs(props)).isImporting == Some(true)
    // the finished trigger: either resource drained is enough
    ensures r.effects.finished <==>
      var status := store.getImportStatus(StatusArgs(props));
      && !store.isResolving(StatusArgs(props))
      && props.inProgress
      && status.isImporting == Some(false)
      && (|| (status.customers.Some? && Drained(status.customers.value))
          || (status.orders.Some? && Drained(status.orders.value)))
    // polling is requested while an import runs
    ensures r.effects.interval <==>
      (props.activeImport || store.getImportStatus(StatusArgs(props)).isImporting == Some(true))
      && props.inProgress
    // the response shape follows activeImport
    ensures r.response.Active? <==> props.activeImport
    ensures r.importDate == store.getImportStatus(StatusArgs(props)).importedFrom
    ensures r.status == getStatus(r.response)
  {
    var response := BuildResponse(props, store);
    Output(
      response,
      store.getImportStatus(StatusArgs(props)).importedFrom,
      getStatus(response),
      Effects(HasImportStarted(props, store), ActivateInterval(props, store), HasImportFinished(props, store)))
  }

  /** The started and finished triggers never fire in the same evaluation. */
  lemma StartedAndFinishedExclusive(props: Props, store: Store, getStatus: Response -> string)
    ensures !(Evaluate(props, store, getStatus).effects.started
              && Evaluate(props, store, getStatus).effects.finished)
  {
  }

  /** Without an active import the response carries only the totals fetch and `isError`. */
  lemma InactiveResponseUsesTotals(props: Props, store: Store, getStatus: Response -> string)
    requires !props.activeImport
    ensures Evaluate(props, store, getStatus).response ==
      Inactive(store.getImportTotals(ParamsArgs(props)).customers,
               IsError(props, store),
               store.getImportTotals(ParamsArgs(props)).orders)
  {
  }

  /**
   * With an active import each total is the status-reported one unless nil,
   * then the totals-fetch value; progress passes through unchanged.
   */
  lemma ActiveResponseUsesStatus(props: Props, store: Store, getStatus: Response -> string)
    requires props.activeImport
    ensures
      var r := Evaluate(props, store, getStatus).response;
      var status := store.getImportStatus(StatusArgs(props));
      var totals := store.getImportTotals(ParamsArgs(props));
      && r.Active?
      && r.inProgress == props.inProgress
      && r.customersProgress == (if status.customers.Some? then status.customers.value.imported else None)
      && r.ordersProgress == (if status.orders.Some? then status.orders.value.imported else None)
      && (status.customers.Some? && status.customers.value.total.Some? ==>
            r.customersTotal == status.customers.value.total)
      && (status.customers.None? || status.customers.value.total.None? ==>
            r.customersTotal == totals.customers)
      && (status.orders.Some? && status.orders.value.total.Some? ==>
            r.ordersTotal == status.orders.value.total)
      && (status.orders.None? || status.orders.value.total.None? ==>
            r.ordersTotal == totals.orders)
  {
  }

  /** Customers drained while orders are not still counts as finished (and symmetrically). */
  lemma EitherResourceFinishes(props: Props, store: Store, getStatus: Response -> string, n: int, m: int)
    requires props.inProgress && !store.isResolving(StatusArgs(props))
    requires n > 0 && m > 0
    requires store.getImportStatus(StatusArgs(props)).isImporting == Some(false)
    requires
      || store.getImportStatus(StatusArgs(props)).customers == Some(Progress(Some(n), Some(n)))
      || store.getImportStatus(StatusArgs(props)).orders == Some(Progress(Some(m), Some(m)))
    ensures Evaluate(props, store, getStatus).effects.finished
    ensures ImportFinished in Fired(Evaluate(props, store, getStatus).effects)
  {
  }

  /** A locally started import (a recorded timestamp) never fires `onImportStarted`. */
  lemma RecordedTimestampNeverStarts(props: Props, store: Store, getStatus: Response -> string)
    requires IsRecorded(props.lastImportStartTimestamp)
    ensures Fired(Evaluate(props, store, getStatus).effects) ==
      (if ActivateInterval(props, store) then [StartStatusCheckInterval] else [])
      + (if HasImportFinished(props, store) then [ImportFinished] else [])
  {
  }
}
