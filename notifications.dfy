/**
  The notification provider (`NotificationSystem.tsx`): a list of
  notifications with add, remove and clear, the defaults a new notification
  gets, and what the container renders. Ids (clock plus random digits) are
  parameters; the auto-removal timer is reported, and its firing is a call
  of `Remove`.
*/
module Notifications {
  import opened Wrappers

  datatype Kind = SuccessKind | ErrorKind | WarningKind | InfoKind

  /** What a caller passes to addNotification: every field but the id;
      `None` is a field the caller left out. */
  datatype Request = Request(kind: Kind, title: string, message: Option<string>,
                             duration: Option<int>, dismissible: Option<bool>)

  datatype Notification = Notification(id: string, kind: Kind, title: string, message: Option<string>,
                                       duration: int, dismissible: bool)

  const DefaultDuration: int := 5000

  /** `{ id, duration: 5000, dismissible: true, ...request }`: supplied fields win. */
  function WithDefaults(id: string, req: Request): (n: Notification)
    ensures n.id == id && n.kind == req.kind && n.title == req.title && n.message == req.message
    ensures req.duration.Some? ==> n.duration == req.duration.value
    ensures req.duration.None? ==> n.duration == DefaultDuration
    ensures req.dismissible.Some? ==> n.dismissible == req.dismissible.value
    ensures req.dismissible.None? ==> n.dismissible
  {
    Notification(id, req.kind, req.title, req.message, req.duration.GetOr(DefaultDuration), req.dismissible.GetOr(true))
  }

  /** The delay of the auto-removal timer, when one is scheduled. */
  function AutoRemoval(n: Notification): (delay: Option<int>)
    ensures delay.Some? <==> n.duration > 0
    ensures delay.Some? ==> delay.value == n.duration
  {
    if n.duration > 0 then Some(n.duration) else None
  }

  /** A request that does not mention a duration is removed after five seconds. */
  lemma DefaultRequestIsRemovedAfterFiveSeconds(id: string, req: Request)
    requires req.duration.None?
    ensures AutoRemoval(WithDefaults(id, req)) == Some(5000)
  {
  }

  /** `notifications.filter(n => n.id !== id)`. */
  function Without(ns: seq<Notification>, id: string): (r: seq<Notification>)
    ensures |r| <= |ns|
    ensures forall n :: n in r <==> n in ns && n.id != id
  {
    if ns == [] then []
    else if ns[0].id == id then Without(ns[1..], id)
    else [ns[0]] + Without(ns[1..], id)
  }

  /** Removal keeps the others in order: it distributes over concatenation. */
  lemma {:induction false} WithoutAppend(a: seq<Notification>, b: seq<Notification>, id: string)
    ensures Without(a + b, id) == Without(a, id) + Without(b, id)
  {
    if a == [] {
      assert a + b == b;
    } else {
      var ab := a + b;
      assert ab[0] == a[0];
      assert ab[1..] == a[1..] + b;
      WithoutAppend(a[1..], b, id);
      if a[0].id != id {
        calc {
          Without(ab, id);
          [a[0]] + Without(a[1..] + b, id);
          [a[0]] + (Without(a[1..], id) + Without(b, id));
          ([a[0]] + Without(a[1..], id)) + Without(b, id);
        }
      }
    }
  }

  /** Removing twice equals removing once. */
  lemma {:induction false} WithoutIdempotent(ns: seq<Notification>, id: string)
    ensures Without(Without(ns, id), id) == Without(ns, id)
  {
    if ns != [] {
      WithoutIdempotent(ns[1..], id);
    }
  }

  /** Removing a freshly added notification's id restores the list, when the
      id was new. */
  lemma RemoveUndoesAdd(ns: seq<Notification>, n: Notification)
    requires forall m :: m in ns ==> m.id != n.id
    ensures Without(ns + [n], n.id) == ns
  {
    WithoutAppend(ns, [n], n.id);
    WithoutOfAbsent(ns, n.id);
    assert Without([n], n.id) == [];
  }

  lemma {:induction false} WithoutOfAbsent(ns: seq<Notification>, id: string)
    requires forall m :: m in ns ==> m.id != id
    ensures Without(ns, id) == ns
  {
    if ns != [] {
      assert ns[0] in ns;
      assert forall m :: m in ns[1..] ==> m in ns;
      WithoutOfAbsent(ns[1..], id);
    }
  }

  /** One rendered notification: whether it shows a message line and a dismiss button. */
  datatype ItemView = ItemView(id: string, title: string, showsMessage: bool, showsDismiss: bool)

  /** NotificationContainer: nothing for an empty list, otherwise one item per
      notification in order; the dismiss button appears iff it is dismissible. */
  function Render(ns: seq<Notification>): (view: Option<seq<ItemView>>)
    ensures view.None? <==> ns == []
    ensures view.Some? ==> |view.value| == |ns| && forall i :: 0 <= i < |ns| ==>
      view.value[i].id == ns[i].id && view.value[i].title == ns[i].title
      && (view.value[i].showsDismiss <==> ns[i].dismissible)
      && (view.value[i].showsMessage <==> ns[i].message.Some? && ns[i].message.value != "")
  {
    if ns == [] then None
    else Some(seq(|ns|, i requires 0 <= i < |ns| =>
      ItemView(ns[i].id, ns[i].title, ns[i].message.Some? && ns[i].message.value != "", ns[i].dismissible)))
  }

  class NotificationCenter {
    var notifications: seq<Notification>

    constructor ()
      ensures notifications == []
    {
      notifications := [];
    }

    /** addNotification: appends one notification and reports the auto-removal
        delay, if any. `id` stands for the generated id. */
    method Add(req: Request, id: string) returns (removeAfter: Option<int>)
      modifies this
      ensures notifications == old(notifications) + [WithDefaults(id, req)]
      ensures removeAfter == AutoRemoval(WithDefaults(id, req))
    {
      var n := WithDefaults(id, req);
      notifications := notifications + [n];
      removeAfter := AutoRemoval(n);
    }

    /** removeNotification, also used by the dismiss button and the timer. */
    method Remove(id: string)
      modifies this
      ensures notifications == Without(old(notifications), id)
    {
      notifications := Without(notifications, id);
    }

    method ClearAll()
      modifies this
      ensures notifications == []
    {
      notifications := [];
    }
  }
}
