/**
 * The notification side of the raw-TCP queue server
 * (`awg_server_raw_notify.c`): each list's status IDLE, LOADING or READY,
 * the status last announced for it, and at most one listener, to which
 * `send_status_update` writes a record `LIST<id>:<STATUS>\n` whenever a
 * list's status differs from the one last announced.
 *
 * The listener socket is reduced to two booleans: `attached` (a listener
 * fd is held) and `peerOpen` (a `send` to it succeeds).  The records it
 * receives are kept in `delivered`.
 */
module Notify {

  /** `enum list_status`, in declaration order. */
  datatype Status = Idle | Loading | Ready

  /** The enum value, the index into the status names. */
  function Code(st: Status): (r: int)
    ensures 0 <= r <= 2
  {
    match st
    case Idle => 0
    case Loading => 1
    case Ready => 2
  }

  function StatusName(st: Status): string
  {
    match st
    case Idle => "IDLE"
    case Loading => "LOADING"
    case Ready => "READY"
  }

  /** What `snprintf(buf, 32, "LIST%d:%s\n", ...)` writes for a list id of 0 or 1. */
  function Record(id: nat, st: Status): string
    requires id <= 1
  {
    "LIST" + (if id == 0 then "0" else "1") + ":" + StatusName(st) + "\n"
  }

  /** A record fits the 32-byte buffer with room for its terminator, so
    * `snprintf` never truncates it. */
  lemma RecordFits(id: nat, st: Status)
    requires id <= 1
    ensures 11 <= |Record(id, st)| <= 14 && |Record(id, st)| < 32
  {
  }

  /** A record names its list and its status: two records are equal only
    * when both are. */
  lemma RecordsDiffer(i: nat, s: Status, j: nat, t: Status)
    requires i <= 1 && j <= 1 && Record(i, s) == Record(j, t)
    ensures i == j && s == t
  {
    var a, b := Record(i, s), Record(j, t);
    assert a[4] == b[4];
    assert a[6] == b[6] && a[7] == b[7];
  }

  /** The notification state: `g_list_status`, `g_last_sent_status`, the
    * listener, and the records the listener has received. */
  datatype NotifyView = NotifyView(
    status: seq<Status>,
    lastSent: seq<int>,
    attached: bool,
    peerOpen: bool,
    delivered: seq<string>)

  predicate NotifyOk(v: NotifyView)
  {
    |v.status| == 2 && |v.lastSent| == 2
  }

  /** Both lists IDLE, nothing announced yet, no listener. */
  const InitialNotify: NotifyView := NotifyView([Idle, Idle], [-1, -1], false, false, [])

  /** `g_list_status[id] = st`. */
  function WithStatus(v: NotifyView, id: nat, st: Status): NotifyView
    requires NotifyOk(v) && id <= 1
  {
    v.(status := v.status[id := st])
  }

  /** `send_status_update(id)`. */
  function Update(v: NotifyView, id: int): NotifyView
    requires NotifyOk(v)
  {
    if id < 0 || id > 1 || !v.attached || Code(v.status[id]) == v.lastSent[id] then v
    else if !v.peerOpen then v.(attached := false)
    else v.(lastSent := v.lastSent[id := Code(v.status[id])], delivered := v.delivered + [Record(id, v.status[id])])
  }

  /** A new listener accepted by `accept_loop_notify`: it replaces the old
    * one, nothing counts as announced, and both statuses are sent. */
  function Listen(v: NotifyView): NotifyView
    requires NotifyOk(v)
  {
    Update(Update(v.(attached := true, peerOpen := true, lastSent := [-1, -1]), 0), 1)
  }

  /** What one `send_status_update` does: nothing for a bad list id or
    * without a listener; otherwise at most one record, and only the
    * record of that list's current status; after a successful send that
    * status counts as announced; a failed send drops the listener and
    * announces nothing. */
  lemma UpdateMeaning(v: NotifyView, id: int)
    requires NotifyOk(v)
    ensures var w := Update(v, id);
      NotifyOk(w) && w.status == v.status && w.peerOpen == v.peerOpen &&
      (id < 0 || id > 1 || !v.attached ==> w == v) &&
      (w.delivered == v.delivered || (0 <= id <= 1 && w.delivered == v.delivered + [Record(id, v.status[id])])) &&
      (w.delivered != v.delivered ==> w.lastSent == v.lastSent[id := Code(v.status[id])] && w.attached) &&
      (w.attached ==> w.delivered != v.delivered || w.lastSent == v.lastSent) &&
      (!v.peerOpen ==> w.delivered == v.delivered && w.lastSent == v.lastSent) &&
      (v.attached && v.peerOpen && 0 <= id <= 1 ==> w.lastSent[id] == Code(v.status[id]) && w.attached)
  {
  }

  /** Sending again without a status change emits nothing more. */
  lemma UpdateIdempotent(v: NotifyView, id: int)
    requires NotifyOk(v)
    ensures Update(Update(v, id), id) == Update(v, id)
  {
  }

  /** `send_status_update(id)` called n times in a row. */
  function Updates(v: NotifyView, id: int, n: nat): (r: NotifyView)
    requires NotifyOk(v)
    ensures NotifyOk(r)
  {
    if n == 0 then v else Update(Updates(v, id, n - 1), id)
  }

  /** Repeated calls without a status change emit at most one record:
    * they leave what the first call left. */
  lemma {:induction false} UpdatesOnce(v: NotifyView, id: int, n: nat)
    requires NotifyOk(v) && n >= 1
    ensures Updates(v, id, n) == Update(v, id)
    ensures |Updates(v, id, n).delivered| <= |v.delivered| + 1
  {
    if n > 1 {
      UpdatesOnce(v, id, n - 1);
      UpdateIdempotent(v, id);
    }
    UpdateMeaning(v, id);
  }

  /** A new listener whose sends succeed receives list 0's status and then
    * list 1's, and both count as announced. */
  lemma ListenAnnounces(v: NotifyView)
    requires NotifyOk(v)
    ensures var w := Listen(v);
      NotifyOk(w) && w.attached && w.status == v.status &&
      w.lastSent == [Code(v.status[0]), Code(v.status[1])] &&
      w.delivered == v.delivered + [Record(0, v.status[0]), Record(1, v.status[1])]
  {
    var u := v.(attached := true, peerOpen := true, lastSent := [-1, -1]);
    assert Update(u, 0).lastSent == [Code(v.status[0]), -1];
  }

  /**
   * The notifier's globals.  `status` and `lastSent` are the two-entry
   * arrays `g_list_status` and `g_last_sent_status`.
   */
  class Notifier {
    var status: array<Status>
    var lastSent: array<int>
    var attached: bool
    var peerOpen: bool
    var delivered: seq<string>

    ghost predicate Valid()
      reads this
    {
      status.Length == 2 && lastSent.Length == 2
    }

    ghost function View(): NotifyView
      reads this, status, lastSent
    {
      NotifyView(status[..], lastSent[..], attached, peerOpen, delivered)
    }

    constructor ()
      ensures Valid() && fresh(status) && fresh(lastSent) && View() == InitialNotify
    {
      status := new Status[2](_ => Idle);
      lastSent := new int[2](_ => -1);
      attached, peerOpen, delivered := false, false, [];
      new;
      assert status[..] == [Idle, Idle] && lastSent[..] == [-1, -1];
    }

    /** `g_list_status[id] = st`, taken under `g_notify_mutex`. */
    method SetStatus(id: nat, st: Status)
      requires Valid() && id <= 1
      modifies status
      ensures Valid() && View() == WithStatus(old(View()), id, st)
    {
      status[id] := st;
    }

    /** `send_status_update`. */
    method SendStatusUpdate(id: int)
      requires Valid()
      modifies this, lastSent
      ensures Valid() && status == old(status) && lastSent == old(lastSent)
      ensures View() == Update(old(View()), id)
    {
      if id < 0 || id > 1 {
        return;
      }
      if attached && Code(status[id]) != lastSent[id] {
        var rec := Record(id, status[id]);
        if !peerOpen {
          attached := false;
        } else {
          delivered := delivered + [rec];
          lastSent[id] := Code(status[id]);
        }
      }
    }

    /** The part of `accept_loop_notify` after `accept`: the new listener
      * replaces the old one, both lists count as never announced, and both
      * statuses are sent. */
    method NewListener()
      requires Valid()
      modifies this, lastSent
      ensures Valid() && status == old(status) && lastSent == old(lastSent)
      ensures View() == Listen(old(View()))
    {
      attached, peerOpen := true, true;
      lastSent[0] := -1;
      lastSent[1] := -1;
      assert View() == old(View()).(attached := true, peerOpen := true, lastSent := [-1, -1]);
      SendStatusUpdate(0);
      SendStatusUpdate(1);
    }

    /** The listener goes away: from now on a `send` to it fails. */
    method PeerCloses()
      requires Valid()
      modifies this
      ensures Valid() && status == old(status) && lastSent == old(lastSent)
      ensures View() == old(View()).(peerOpen := false)
    {
      peerOpen := false;
    }
  }
}
