/**
 * `SettingsFeature`: the saved-content count, the "delete everything"
 * confirmation alert, and the bulk delete, which deletes the fetched records
 * one at a time and gives up at the first failed delete.
 */
module SettingsFeature {
  import opened Wrappers
  import opened Domain
  import opened ContentClient

  datatype AlertAction = ConfirmDelete

  /** What the presented alert sends: a button's action, or its dismissal. */
  datatype PresentationAction = Presented(action: AlertAction) | Dismiss

  datatype Action =
    | OnAppear
    | ContentCountLoaded(count: int)
    | DeleteAllTapped
    | DeleteAllCompleted
    | DeleteAllFailed
    | Alert(presentation: PresentationAction)

  datatype ButtonRole = Destructive | Cancel

  datatype Button = Button(role: ButtonRole, action: Option<AlertAction>)

  /** An alert, described by its buttons (its texts are not modelled). */
  datatype AlertState = AlertState(buttons: seq<Button>)

  /** The confirmation alert: a destructive button that confirms, and a cancel button. */
  const DeleteAllAlert: AlertState := AlertState([Button(Destructive, Some(ConfirmDelete)), Button(Cancel, None)])

  datatype State = State(appVersion: string, savedContentCount: int, alert: Option<AlertState>)

  const Initial: State := State("", 0, None)

  /** The asynchronous work a step asks for. */
  datatype Effect = NoEffect | FetchCount | DeleteEverything

  datatype Transition = Transition(state: State, effect: Effect)

  /**
   * One reducer step. `bundleVersion` is the version string read from the app
   * bundle on appear, if any. Every alert action also dismisses the alert, as
   * the presentation reducer does for alerts.
   */
  function Reduce(s: State, a: Action, bundleVersion: Option<string>): (r: Transition)
    ensures r.effect == FetchCount <==> a.OnAppear?
    ensures r.effect == DeleteEverything <==> a == Alert(Presented(ConfirmDelete))
    ensures r.state.appVersion == if a.OnAppear? then bundleVersion.GetOr("1.0") else s.appVersion
    ensures r.state.alert.Some? <==> a.DeleteAllTapped? || (!a.Alert? && s.alert.Some?)
    ensures r.state.savedContentCount ==
      if a.ContentCountLoaded? then a.count else if a.DeleteAllCompleted? then 0 else s.savedContentCount
  {
    match a
    case OnAppear => Transition(s.(appVersion := bundleVersion.GetOr("1.0")), FetchCount)
    case ContentCountLoaded(n) => Transition(s.(savedContentCount := n), NoEffect)
    case DeleteAllTapped => Transition(s.(alert := Some(DeleteAllAlert)), NoEffect)
    case Alert(Presented(ConfirmDelete)) => Transition(s.(alert := None), DeleteEverything)
    case Alert(Dismiss) => Transition(s.(alert := None), NoEffect)
    case DeleteAllCompleted => Transition(s.(savedContentCount := 0), NoEffect)
    case DeleteAllFailed => Transition(s, NoEffect)
  }

  /** `contentCountLoaded(n)` sets the count to `n` and changes nothing else. */
  lemma CountLoadedSetsCount(s: State, n: int, v: Option<string>)
    ensures Reduce(s, ContentCountLoaded(n), v) == Transition(s.(savedContentCount := n), NoEffect)
  {
  }

  /** `deleteAllTapped` presents the alert, whose destructive button confirms, and keeps the count. */
  lemma DeleteAllTappedPresentsAlert(s: State, v: Option<string>)
    ensures var t := Reduce(s, DeleteAllTapped, v);
      && t.state.alert == Some(DeleteAllAlert)
      && t.state.savedContentCount == s.savedContentCount
      && t.effect == NoEffect
      && exists b :: b in DeleteAllAlert.buttons && b.role == Destructive && b.action == Some(ConfirmDelete)
  {
    assert DeleteAllAlert.buttons[0] == Button(Destructive, Some(ConfirmDelete));
  }

  /** Confirming starts the bulk delete and keeps the count; only its outcome changes the count. */
  lemma ConfirmStartsDeleteAll(s: State, v: Option<string>)
    ensures var t := Reduce(s, Alert(Presented(ConfirmDelete)), v);
      t.effect == DeleteEverything && t.state.savedContentCount == s.savedContentCount
  {
  }

  /** `deleteAllCompleted` zeroes the count; `deleteAllFailed` leaves the state as it was. */
  lemma DeleteOutcomes(s: State, v: Option<string>)
    ensures Reduce(s, DeleteAllCompleted, v).state == s.(savedContentCount := 0)
    ensures Reduce(s, DeleteAllFailed, v) == Transition(s, NoEffect)
  {
  }

  /** `onAppear` shows the bundle's version, `1.0` when the bundle has none, and asks for the count. */
  lemma OnAppearReadsVersion(s: State, v: Option<string>)
    ensures var t := Reduce(s, OnAppear, v);
      && t.effect == FetchCount
      && (v.Some? ==> t.state.appVersion == v.value)
      && (v.None? ==> t.state.appVersion == "1.0")
      && t.state.savedContentCount == s.savedContentCount && t.state.alert == s.alert
  {
  }

  /** Every alert action, confirming or dismissing, takes the alert down; only confirming has an effect. */
  lemma AlertActionsDismiss(s: State, p: PresentationAction, v: Option<string>)
    ensures Reduce(s, Alert(p), v).state == s.(alert := None)
    ensures Reduce(s, Alert(p), v).effect == (if p.Presented? then DeleteEverything else NoEffect)
  {
  }

  /** The shown count moves only when a count arrives or a delete-all completes. */
  lemma CountChangesOnlyOnLoadOrComplete(s: State, a: Action, v: Option<string>)
    ensures Reduce(s, a, v).state.savedContentCount != s.savedContentCount ==>
      a.ContentCountLoaded? || a.DeleteAllCompleted?
  {
  }

  // ----- Effects -----

  /** The effect of `onAppear`: the fetched count, or no action at all when the fetch fails. */
  method CountEffect(client: ContentStore, fetchFails: bool) returns (next: Option<Action>)
    ensures next == if fetchFails then None else Some(ContentCountLoaded(|client.contents|))
  {
    var r := client.Fetch(fetchFails);
    match r
    case Success(contents) => next := Some(ContentCountLoaded(|contents|));
    case Failure(_) => next := None;
  }

  /** The index of the first attempt in `from .. n` that fails, or `n` when none does. */
  function FirstFailure(fails: nat -> bool, from: nat, n: nat): (k: nat)
    requires from <= n
    ensures from <= k <= n
    ensures forall i :: from <= i < k ==> !fails(i)
    ensures k < n ==> fails(k)
    decreases n - from
  {
    if from == n || fails(from) then from else FirstFailure(fails, from + 1, n)
  }

  /** The ids of `xs`, in order. */
  function IdSeq(xs: seq<SavedContent>): (r: seq<Uuid>)
    ensures |r| == |xs| && forall i :: 0 <= i < |xs| ==> r[i] == xs[i].id
  {
    seq(|xs|, i requires 0 <= i < |xs| => xs[i].id)
  }

  /**
   * The `for content in contents { try await delete(content.id) }` loop: deletes
   * the fetched records in order and stops at the first failed delete.
   * `deleteFails(i)` says whether the i-th delete hits a storage failure.
   * Returns the ids whose deletion was attempted and whether all succeeded.
   */
  method DeleteInOrder(client: ContentStore, fetched: seq<SavedContent>, deleteFails: nat -> bool)
    returns (attempted: seq<Uuid>, completed: bool)
    requires client.Valid() && client.contents == fetched
    modifies client
    ensures client.Valid()
    ensures var k := FirstFailure(deleteFails, 0, |fetched|);
      && client.contents == fetched[k..]
      && (completed <==> k == |fetched|)
      && |attempted| == (if completed then k else k + 1)
      && forall j :: 0 <= j < |attempted| ==> attempted[j] == fetched[j].id
  {
    ghost var k := FirstFailure(deleteFails, 0, |fetched|);
    attempted := [];
    var i := 0;
    while i < |fetched|
      invariant 0 <= i <= k
      invariant client.Valid() && client.contents == fetched[i..]
      invariant |attempted| == i && forall j :: 0 <= j < i ==> attempted[j] == fetched[j].id
    {
      var id := fetched[i].id;
      ghost var before := client.contents;
      assert before[0] == fetched[i] && before[1..] == fetched[i + 1..];
      assert id in Ids(before);
      RemoveFirst(before);
      var d := client.Delete(id, deleteFails(i));
      assert d.Success? <==> !deleteFails(i);
      attempted := attempted + [id];
      if d.Failure? {
        assert i == k;
        completed := false;
        return;
      }
      assert client.contents == fetched[i + 1..];
      i := i + 1;
    }
    completed := true;
  }

  /**
   * The effect of confirming: fetch, then delete each fetched record in fetch
   * order, stopping at the first failure. Returns the ids whose deletion was
   * attempted and the action sent back.
   */
  method DeleteAllEffect(client: ContentStore, fetchFails: bool, deleteFails: nat -> bool)
    returns (attempted: seq<Uuid>, next: Action)
    requires client.Valid()
    modifies client
    ensures client.Valid()
    ensures fetchFails ==> attempted == [] && next == DeleteAllFailed && client.contents == old(client.contents)
    ensures !fetchFails ==>
      var fetched := old(client.contents);
      var k := FirstFailure(deleteFails, 0, |fetched|);
      && client.contents == fetched[k..]
      && attempted == IdSeq(fetched[..if k < |fetched| then k + 1 else k])
      && (next == DeleteAllCompleted <==> k == |fetched|)
      && (next == DeleteAllFailed <==> k < |fetched|)
    ensures next == DeleteAllCompleted ==> client.contents == []
  {
    var r := client.Fetch(fetchFails);
    if r.Failure? {
      attempted, next := [], DeleteAllFailed;
      return;
    }
    var completed;
    attempted, completed := DeleteInOrder(client, r.value, deleteFails);
    next := if completed then DeleteAllCompleted else DeleteAllFailed;
  }

  /** The feature's store: the state, updated in place by each action. */
  class SettingsStore {
    var appVersion: string
    var savedContentCount: int
    var alert: Option<AlertState>

    function Snapshot(): State
      reads this
    {
      State(appVersion, savedContentCount, alert)
    }

    constructor ()
      ensures Snapshot() == Initial
    {
      appVersion, savedContentCount, alert := "", 0, None;
    }

    /** Runs the reducer on one action and returns the effect it asks for. */
    method Step(a: Action, bundleVersion: Option<string>) returns (effect: Effect)
      modifies this
      ensures Snapshot() == Reduce(old(Snapshot()), a, bundleVersion).state
      ensures effect == Reduce(old(Snapshot()), a, bundleVersion).effect
    {
      match a
      case OnAppear =>
        appVersion := bundleVersion.GetOr("1.0");
        effect := FetchCount;
      case ContentCountLoaded(n) =>
        savedContentCount := n;
        effect := NoEffect;
      case DeleteAllTapped =>
        alert := Some(DeleteAllAlert);
        effect := NoEffect;
      case Alert(Presented(ConfirmDelete)) =>
        alert := None;
        effect := DeleteEverything;
      case Alert(Dismiss) =>
        alert := None;
        effect := NoEffect;
      case DeleteAllCompleted =>
        savedContentCount := 0;
        effect := NoEffect;
      case DeleteAllFailed =>
        effect := NoEffect;
    }
  }

  /**
   * Confirming in the alert, end to end: the confirm step, the bulk delete
   * against the store, and the step for its outcome. When every fetched record
   * is deleted the count is zero and the store is empty; otherwise the count is
   * left as it was, possibly stale, and the records from the failed one on remain.
   */
  method ConfirmDeleteAll(feature: SettingsStore, client: ContentStore, fetchFails: bool, deleteFails: nat -> bool)
    returns (attempted: seq<Uuid>)
    requires client.Valid()
    modifies feature, client
    ensures client.Valid() && feature.alert.None? && feature.appVersion == old(feature.appVersion)
    ensures var fetched := old(client.contents);
      var k := if fetchFails then 0 else FirstFailure(deleteFails, 0, |fetched|);
      && client.contents == fetched[k..]
      && attempted == (if fetchFails then [] else IdSeq(fetched[..if k < |fetched| then k + 1 else k]))
      && feature.savedContentCount == (if !fetchFails && k == |fetched| then 0 else old(feature.savedContentCount))
  {
    var effect := feature.Step(Alert(Presented(ConfirmDelete)), None);
    var next;
    attempted, next := DeleteAllEffect(client, fetchFails, deleteFails);
    effect := feature.Step(next, None);
  }
}
