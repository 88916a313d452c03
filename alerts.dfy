/**
  The alert feeds: the cyclone monitor's bounded, newest-first feed with
  its duplicate rule for danger alerts, removal by id, and the standalone
  banner component with its two built-in alerts and its type styling.
*/
module Alerts {
  import opened Optional
  import opened Sequences

  datatype AlertKind = Danger | Warning | Info
  {
    /** The `type` string the components switch on. */
    function Name(): string
    {
      match this
      case Danger => "danger"
      case Warning => "warning"
      case Info => "info"
    }
  }

  /** A cyclone monitor alert; `location` is optional, `timestamp` is supplied by the caller. */
  datatype Alert = Alert(id: string, kind: AlertKind, message: string, location: Option<string>, timestamp: int)

  /** The feed keeps at most this many alerts. */
  const FeedLimit: nat := 5

  /** Some danger alert in `feed` carries exactly `message`. */
  predicate HasDanger(feed: seq<Alert>, message: string)
  {
    exists i :: 0 <= i < |feed| && feed[i].kind == Danger && feed[i].message == message
  }

  /**
    The feed after `addAlert`: a danger alert whose message is already
    shown by a danger alert is dropped; any other alert goes in front and
    the feed is cut back to its first `FeedLimit` entries.
  */
  function Added(feed: seq<Alert>, a: Alert): seq<Alert>
  {
    if a.kind == Danger && HasDanger(feed, a.message) then feed
    else Take([a] + feed, FeedLimit)
  }

  /** No two danger alerts of the feed carry the same message. */
  predicate DangerMessagesDistinct(feed: seq<Alert>)
  {
    forall i, j :: 0 <= i < j < |feed| && feed[i].kind == Danger && feed[j].kind == Danger ==>
      feed[i].message != feed[j].message
  }

  /** What every feed built by `Added` from the empty feed satisfies. */
  predicate ValidFeed(feed: seq<Alert>)
  {
    |feed| <= FeedLimit && DangerMessagesDistinct(feed)
  }

  /** A duplicate danger alert leaves the feed as it was. */
  lemma DuplicateDangerIgnored(feed: seq<Alert>, a: Alert)
    requires a.kind == Danger && HasDanger(feed, a.message)
    ensures Added(feed, a) == feed
  {
  }

  /**
    Any other alert becomes the newest entry, followed by the previous
    entries in order, with the oldest ones beyond the limit evicted.
  */
  lemma NewAlertInFront(feed: seq<Alert>, a: Alert)
    requires !(a.kind == Danger && HasDanger(feed, a.message))
    ensures var r := Added(feed, a);
      && r[0] == a
      && |r| == (if |feed| < FeedLimit then |feed| + 1 else FeedLimit)
      && r[1..] == feed[..|r| - 1]
  {
    var r := Added(feed, a);
    assert r == ([a] + feed)[..|r|];
  }

  /** Warning and info alerts are never deduplicated, even when an identical one is shown. */
  lemma NonDangerNeverDeduplicated(feed: seq<Alert>, a: Alert)
    requires a.kind != Danger
    ensures Added(feed, a)[0] == a
    ensures |Added(feed, a)| == (if |feed| < FeedLimit then |feed| + 1 else FeedLimit)
  {
    NewAlertInFront(feed, a);
  }

  /** Adding keeps the feed within its limit and its danger messages distinct. */
  lemma {:induction false} AddedKeepsValid(feed: seq<Alert>, a: Alert)
    requires ValidFeed(feed)
    ensures ValidFeed(Added(feed, a))
  {
    var r := Added(feed, a);
    if !(a.kind == Danger && HasDanger(feed, a.message)) {
      assert r == ([a] + feed)[..|r|];
      forall i, j | 0 <= i < j < |r| && r[i].kind == Danger && r[j].kind == Danger
        ensures r[i].message != r[j].message
      {
        assert r[j] == feed[j - 1];
        if i == 0 {
          assert r[i] == a;
          assert !(feed[j - 1].kind == Danger && feed[j - 1].message == a.message);
        } else {
          assert r[i] == feed[i - 1];
        }
      }
    }
  }

  /** Once a danger alert is in, a second danger alert with its message changes nothing. */
  lemma {:induction false} DangerAddIdempotent(feed: seq<Alert>, a: Alert, b: Alert)
    requires a.kind == Danger && b.kind == Danger && b.message == a.message
    ensures Added(Added(feed, a), b) == Added(feed, a)
  {
    var r := Added(feed, a);
    if !HasDanger(feed, a.message) {
      assert r[0] == a;
    }
    assert HasDanger(r, b.message);
  }

  /** The feed after adding `alerts` one after the other, first to last. */
  function AddedAll(feed: seq<Alert>, alerts: seq<Alert>): seq<Alert>
  {
    if alerts == [] then feed
    else Added(AddedAll(feed, alerts[..|alerts| - 1]), alerts[|alerts| - 1])
  }

  /**
    With no danger alert among them, adding `alerts` yields them newest
    first in front of the old feed, cut to the limit.
  */
  lemma {:induction false} AddedAllNonDanger(feed: seq<Alert>, alerts: seq<Alert>)
    requires |feed| <= FeedLimit
    requires forall i :: 0 <= i < |alerts| ==> alerts[i].kind != Danger
    ensures AddedAll(feed, alerts) == Take(Reverse(alerts) + feed, FeedLimit)
  {
    if alerts != [] {
      var init := alerts[..|alerts| - 1];
      var last := alerts[|alerts| - 1];
      AddedAllNonDanger(feed, init);
      assert forall i :: 0 <= i < |init| ==> init[i] == alerts[i];
      assert AddedAll(feed, alerts) == Take([last] + AddedAll(feed, init), FeedLimit);
      TakeOfCons(last, Reverse(init) + feed, FeedLimit);
      assert Reverse(alerts) == [last] + Reverse(init);
      assert [last] + (Reverse(init) + feed) == Reverse(alerts) + feed;
    }
  }

  /** After five or more non-danger alerts the feed holds exactly the five newest, newest first. */
  lemma FeedHoldsFiveNewest(feed: seq<Alert>, alerts: seq<Alert>)
    requires |feed| <= FeedLimit && |alerts| >= FeedLimit
    requires forall i :: 0 <= i < |alerts| ==> alerts[i].kind != Danger
    ensures |AddedAll(feed, alerts)| == FeedLimit
    ensures forall i :: 0 <= i < FeedLimit ==> AddedAll(feed, alerts)[i] == alerts[|alerts| - 1 - i]
  {
    AddedAllNonDanger(feed, alerts);
    var r := Reverse(alerts);
    assert forall i :: 0 <= i < FeedLimit ==> (r + feed)[i] == r[i];
  }

  /** `items.filter(x => idOf(x) !== id)`: the list without the entries carrying `id`. */
  function WithoutId<T(!new)>(items: seq<T>, idOf: T -> string, id: string): seq<T>
  {
    Filter(items, Other(idOf, id))
  }

  /** The test `x => idOf(x) !== id`. */
  function Other<T>(idOf: T -> string, id: string): T -> bool
  {
    x => idOf(x) != id
  }

  /**
    Removing an id drops every entry carrying it, keeps every other entry
    in its original order, never lengthens the list, and changes nothing
    when the id is absent.
  */
  lemma WithoutIdSpec<T(!new)>(items: seq<T>, idOf: T -> string, id: string)
    ensures forall x :: x in WithoutId(items, idOf, id) ==> idOf(x) != id
    ensures forall x :: x in items && idOf(x) != id ==> x in WithoutId(items, idOf, id)
    ensures IsSubsequence(WithoutId(items, idOf, id), items)
    ensures |WithoutId(items, idOf, id)| <= |items|
    ensures (forall x :: x in items ==> idOf(x) != id) ==> WithoutId(items, idOf, id) == items
  {
    FilterIsSubsequence(items, Other(idOf, id));
    if forall x :: x in items ==> idOf(x) != id {
      FilterKeepsAll(items, Other(idOf, id));
    }
  }

  /** Removal keeps a valid feed valid. */
  lemma {:induction false} WithoutIdKeepsValid(feed: seq<Alert>, id: string)
    requires ValidFeed(feed)
    ensures ValidFeed(WithoutId(feed, AlertId, id))
  {
    FilterKeepsValid(feed, Other(AlertId, id));
  }

  lemma {:induction false} FilterKeepsValid(feed: seq<Alert>, keep: Alert -> bool)
    requires ValidFeed(feed)
    ensures ValidFeed(Filter(feed, keep))
  {
    if feed != [] {
      var rest := Filter(feed[1..], keep);
      FilterKeepsValid(feed[1..], keep);
      if keep(feed[0]) {
        var r := Filter(feed, keep);
        assert r == [feed[0]] + rest;
        forall i, j | 0 <= i < j < |r| && r[i].kind == Danger && r[j].kind == Danger
          ensures r[i].message != r[j].message
        {
          if i == 0 {
            assert r[j] in feed[1..];
            var k :| 0 <= k < |feed[1..]| && feed[1..][k] == r[j];
            assert feed[k + 1] == r[j];
          }
        }
      }
    }
  }

  function AlertId(a: Alert): string
  {
    a.id
  }

  // ----- the standalone banner component -----

  /** A banner alert: no location or time. */
  datatype Notice = Notice(id: string, kind: AlertKind, message: string)

  function NoticeId(n: Notice): string
  {
    n.id
  }

  /** The banner's two built-in alerts. */
  function InitialNotices(): (r: seq<Notice>)
    ensures |r| == 2 && r[0].kind == Danger && r[1].kind == Warning
    ensures r[0].id != r[1].id
  {
    [ Notice("1", Danger, "Cyclone Alert: High risk detected!"),
      Notice("2", Warning, "High Tide Warning expected today.") ]
  }

  datatype Icon = AlertTriangle | AlertCircle | InfoIcon

  /** `getIcon(type)`: any type other than danger or warning is shown as info. */
  function IconFor(kind: string): Icon
  {
    if kind == "danger" then AlertTriangle
    else if kind == "warning" then AlertCircle
    else InfoIcon
  }

  /** `getClasses(type)`. */
  function ClassesFor(kind: string): string
  {
    if kind == "danger" then "bg-red-600 text-white"
    else if kind == "warning" then "bg-yellow-500 text-black"
    else "bg-blue-600 text-white"
  }

  /** The three styles differ, and every unknown type falls back to the info style. */
  lemma StyleMapping(kind: string)
    ensures IconFor(kind) == AlertTriangle <==> kind == "danger"
    ensures IconFor(kind) == AlertCircle <==> kind == "warning"
    ensures kind != "danger" && kind != "warning" ==>
      IconFor(kind) == IconFor(Info.Name()) && ClassesFor(kind) == ClassesFor(Info.Name())
    ensures ClassesFor("danger") != ClassesFor("warning") && ClassesFor("warning") != ClassesFor("info")
      && ClassesFor("info") != ClassesFor("danger")
  {
  }

  /** One rendered banner row: the dismiss button's id, icon, classes and text. */
  datatype Row = Row(id: string, icon: Icon, classes: string, message: string)

  /** The banner's output: nothing at all for an empty list, else one row per alert in order. */
  function Rendered(alerts: seq<Notice>): (r: Option<seq<Row>>)
    ensures r == None <==> alerts == []
    ensures r.Some? ==>
      && |r.value| == |alerts|
      && forall i :: 0 <= i < |alerts| ==>
           && r.value[i].id == alerts[i].id && r.value[i].message == alerts[i].message
           && r.value[i].icon == IconFor(alerts[i].kind.Name())
           && r.value[i].classes == ClassesFor(alerts[i].kind.Name())
  {
    if alerts == [] then None
    else Some(seq(|alerts|, i requires 0 <= i < |alerts| =>
      Row(alerts[i].id, IconFor(alerts[i].kind.Name()), ClassesFor(alerts[i].kind.Name()), alerts[i].message)))
  }

  /** The standalone banner: a list of alerts the user can dismiss one by one. */
  class AlertBanner {
    var alerts: seq<Notice>

    constructor ()
      ensures alerts == InitialNotices()
    {
      alerts := InitialNotices();
    }

    /** `removeAlert(id)`. */
    method RemoveAlert(id: string)
      modifies this
      ensures alerts == WithoutId(old(alerts), NoticeId, id)
    {
      alerts := WithoutId(alerts, NoticeId, id);
    }

    function View(): Option<seq<Row>>
      reads this
    {
      Rendered(alerts)
    }
  }

  /** Dismissing both built-in alerts hides the banner; dismissing only one leaves the other. */
  lemma DismissBuiltIns()
    ensures Rendered(WithoutId(WithoutId(InitialNotices(), NoticeId, "1"), NoticeId, "2")) == None
    ensures WithoutId(InitialNotices(), NoticeId, "1") == [InitialNotices()[1]]
  {
    var n := InitialNotices();
    var drop1, drop2 := Other(NoticeId, "1"), Other(NoticeId, "2");
    assert !drop1(n[0]) && drop1(n[1]);
    assert n[1..][1..] == [];
    assert Filter(n[1..], drop1) == [n[1]] + Filter(n[1..][1..], drop1);
    assert WithoutId(n, NoticeId, "1") == [n[1]];
    assert !drop2(n[1]);
    assert [n[1]][1..] == [];
  }
}
