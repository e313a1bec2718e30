/** What composing and publishing notifications does to a record, to the id counter and on the screen, read off the
    record and the answers of the service. */
module Publishing {
  import opened Wrappers
  import opened TaskRecord
  import opened Subscribers
  import opened TaskTable
  import opened Invariants

  /** The main notification a record shows next, under its own label: the old id, or the next one. */
  function MainShown(r: Record, next: int): Notice {
    Notice(OwnLabel(r), if r.notice.id == -1 then next + 1 else r.notice.id, r.notice.subText, r.notice.subId)
  }

  /** How many ids an attempt to publish takes. */
  function NewIds(id: int): int {
    if id == -1 then 1 else 0
  }

  /** An empty text withdraws what was shown; without a text, and when the service refuses, the record stays as it
      is; a refused attempt has taken its id. */
  predicate IsSent(r: Record, next: int, v: Verdict, p: Posted) {
    var n := MainShown(r, next);
    match v
    case Unavailable => p == Posted(r, next, [], NotificationUnverified)
    case EmptyText =>
      p == Posted(r.(notice := r.notice.(id := -1)), next,
                  if r.notice.id == -1 then [] else [CancelMain(r.notice.text, r.notice.id)], Ok)
    case Suppressed => p == Posted(r, next, [], Ok)
    case Accepted => p == Posted(r.(notice := n), next + NewIds(r.notice.id), [Post(n.text, n.id)], Ok)
    case Rejected => p == Posted(r, next + NewIds(r.notice.id), [], NotificationRefused)
  }

  lemma SendIs(r: Record, next: int, v: Verdict)
    ensures IsSent(r, next, v, Send(r, next, v))
  {
    hide OwnLabel;
  }

  /** A live view, and a second notification for the other modes. When the second fails, the first is withdrawn from
      the screen; the record keeps its label and id. */
  predicate IsSentLive(r: Record, next: int, a: Answer, p: Posted) {
    var n, next' := MainShown(r, next), next + NewIds(r.notice.id);
    var shown, withdrawn := r.(notice := n), [Post(n.text, n.id), CancelMain(n.text, n.id)];
    if a.main.Unavailable? then p == Posted(r, next, [], NotificationUnverified)
    else if a.main.Rejected? then p == Posted(r, next', [], NotificationRefused)
    else match a.sub
      case EmptyText => p == Posted(shown, next', [Post(n.text, n.id)], Ok)
      case Unavailable => p == Posted(shown, next', withdrawn, NotificationUnverified)
      case Rejected => p == Posted(shown, next' + NewIds(n.subId), withdrawn, NotificationRefused)
      case _ =>
        var sub := if n.subId == -1 then next' + 1 else n.subId;
        p == Posted(r.(notice := n.(subText := OwnSubLabel(r), subId := sub)), next' + NewIds(n.subId),
                    [Post(n.text, n.id), Post(OwnSubLabel(r), sub)], Ok)
  }

  lemma SendLiveIs(r: Record, next: int, a: Answer)
    ensures IsSentLive(r, next, a, SendLive(r, next, a))
  {
    hide OwnLabel, OwnSubLabel;
    SameSubLabel(r, r.(notice := MainShown(r, next)));
  }

  lemma SameSubLabel(r: Record, r': Record)
    requires r'.app == r.app
    ensures OwnSubLabel(r') == OwnSubLabel(r)
  {
  }

  /** Nothing is published for a suspended task; a live view goes with several modes, one of them data transfer, of
      a request-object task. */
  predicate IsRefreshed(r: Record, next: int, a: Answer, p: Posted) {
    if r.phase.suspended then p == Posted(r, next, [], Ok)
    else if r.app.byRequest && |r.work.modes| > 1 && 1 in r.work.modes then IsSentLive(r, next, a, p)
    else IsSent(r, next, a.main, p)
  }

  lemma RefreshIs(r: Record, next: int, a: Answer)
    ensures IsRefreshed(r, next, a, Refresh(r, next, a))
  {
    hide Send, SendLive, IsSent, IsSentLive;
    SendIs(r, next, a.main);
    SendLiveIs(r, next, a);
  }

  // ---------------------------------------------------------------- the screen

  /** A notification is on the screen when the last request about its label and id was to show it. */
  function OnScreen(notes: seq<Note>, text: string, id: int): bool {
    if notes == [] then false
    else match notes[|notes| - 1]
      case Post(t, i) => (t == text && i == id) || OnScreen(notes[..|notes| - 1], text, id)
      case CancelMain(t, i) => !(t == text && i == id) && OnScreen(notes[..|notes| - 1], text, id)
      case CancelSub(t, i) => !(t == text && i == id) && OnScreen(notes[..|notes| - 1], text, id)
  }

  /** The main notification of the record is on the screen, and so is the additional one, if it has them. */
  predicate Visible(notes: seq<Note>, r: Record) {
    && (r.notice.id != -1 ==> OnScreen(notes, r.notice.text, r.notice.id))
    && (r.notice.subId != -1 ==> OnScreen(notes, r.notice.subText, r.notice.subId))
  }

  lemma ScreenSnoc(notes: seq<Note>, n: Note, text: string, id: int)
    ensures OnScreen(notes + [n], text, id)
         == match n
            case Post(t, i) => (t == text && i == id) || OnScreen(notes, text, id)
            case CancelMain(t, i) => !(t == text && i == id) && OnScreen(notes, text, id)
            case CancelSub(t, i) => !(t == text && i == id) && OnScreen(notes, text, id)
  {
    assert (notes + [n])[..|notes|] == notes;
  }

  /** After a refresh that succeeds the record's notifications are on the screen, if those it had were. */
  lemma RefreshVisible(notes: seq<Note>, r: Record, next: int, a: Answer)
    requires Visible(notes, r) && (r.notice.text != r.notice.subText || r.notice.id != r.notice.subId)
    requires Refresh(r, next, a).status == Ok
    ensures var p := Refresh(r, next, a); Visible(notes + p.notes, p.r)
  {
    hide Refresh, OnScreen, OwnLabel, OwnSubLabel;
    RefreshIs(r, next, a);
    var p := Refresh(r, next, a);
    var n := p.r.notice;
    if |p.notes| == 0 {
      assert notes + p.notes == notes;
    } else if |p.notes| == 1 {
      assert notes + p.notes == notes + [p.notes[0]];
      ScreenSnoc(notes, p.notes[0], n.text, n.id);
      ScreenSnoc(notes, p.notes[0], n.subText, n.subId);
    } else {
      assert notes + p.notes == notes + [p.notes[0]] + [p.notes[1]];
      ScreenSnoc(notes, p.notes[0], n.text, n.id);
      ScreenSnoc(notes + [p.notes[0]], p.notes[1], n.text, n.id);
      ScreenSnoc(notes + [p.notes[0]], p.notes[1], n.subText, n.subId);
    }
  }
}
