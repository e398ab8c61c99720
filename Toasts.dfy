/** The toast queue of `src/contexts/ToastContext.jsx`: an ordered list of
    notifications, appended to with defaults filled in and pruned by id.
    The id the source takes from `Date.now()` is a parameter. */
module Toasts {
  import opened Wrappers
  import opened Seqs

  datatype Kind = Success | Error | Info | Warning

  datatype Toast = Toast(id: int, message: string, kind: Kind, duration: int)

  const DEFAULT_KIND: Kind := Info
  const DEFAULT_DURATION: int := 3000

  /** The record `addToast` stores; an omitted (`undefined`) kind or
      duration takes its default. */
  function NewToast(id: int, message: string, kind: Option<Kind>, duration: Option<int>): (t: Toast)
    ensures t.id == id && t.message == message
    ensures kind.Some? ==> t.kind == kind.value
    ensures kind.None? ==> t.kind == Info
    ensures duration.Some? ==> t.duration == duration.value
    ensures duration.None? ==> t.duration == 3000
  {
    Toast(id, message, kind.GetOr(DEFAULT_KIND), duration.GetOr(DEFAULT_DURATION))
  }

  function OtherId(id: int): Toast -> bool {
    (t: Toast) => t.id != id
  }

  /** `prevToasts.filter(toast => toast.id !== id)` in `removeToast`. */
  function Dismissed(ts: seq<Toast>, id: int): seq<Toast> {
    Filter(ts, OtherId(id))
  }

  /** Removal deletes every toast with the id and keeps the others in
      order, each as often as before; an unknown id changes nothing. */
  lemma DismissKeepsOthers(ts: seq<Toast>, id: int)
    ensures IsSubsequence(Dismissed(ts, id), ts)
    ensures forall t :: t in Dismissed(ts, id) <==> t in ts && t.id != id
    ensures (forall t :: t in ts ==> t.id != id) ==> Dismissed(ts, id) == ts
    ensures forall x :: multiset(Dismissed(ts, id))[x] == if x.id != id then multiset(ts)[x] else 0
  {
    FilterIsSubsequence(ts, OtherId(id));
    forall x ensures multiset(Dismissed(ts, id))[x] == if x.id != id then multiset(ts)[x] else 0 {
      FilterCount(ts, OtherId(id), x);
    }
    forall t ensures t in Dismissed(ts, id) <==> t in ts && t.id != id {
      FilterMembers(ts, OtherId(id), t);
    }
    if forall t :: t in ts ==> t.id != id {
      FilterKeepsAll(ts, OtherId(id));
    }
  }

  /** Showing a toast under an id no other toast has, then removing that
      id, leaves the list as it was. */
  lemma AddThenRemove(ts: seq<Toast>, t: Toast)
    requires forall u :: u in ts ==> u.id != t.id
    ensures Dismissed(ts + [t], t.id) == ts
  {
    FilterAppend(ts, [t], OtherId(t.id));
    FilterKeepsAll(ts, OtherId(t.id));
    assert Filter([t], OtherId(t.id)) == [];
  }

  /** The provider's state: the toasts on screen, oldest first. */
  class ToastQueue {
    var toasts: seq<Toast>

    constructor ()
      ensures toasts == []
    {
      toasts := [];
    }

    /** `addToast`: one new record at the end, the earlier ones untouched;
        returns the id it stored. */
    method AddToast(id: int, message: string, kind: Option<Kind>, duration: Option<int>)
      returns (r: int)
      modifies this
      ensures r == id
      ensures toasts == old(toasts) + [NewToast(id, message, kind, duration)]
    {
      toasts := toasts + [NewToast(id, message, kind, duration)];
      r := id;
    }

    /** `removeToast`. */
    method RemoveToast(id: int)
      modifies this
      ensures toasts == Dismissed(old(toasts), id)
    {
      toasts := Filter(toasts, OtherId(id));
    }

    /** `showSuccess`: `addToast` with the success kind. */
    method ShowSuccess(id: int, message: string, duration: Option<int>) returns (r: int)
      modifies this
      ensures r == id
      ensures toasts == old(toasts) + [NewToast(id, message, Some(Success), duration)]
    {
      r := AddToast(id, message, Some(Success), duration);
    }

    /** `showError`: `addToast` with the error kind. */
    method ShowError(id: int, message: string, duration: Option<int>) returns (r: int)
      modifies this
      ensures r == id
      ensures toasts == old(toasts) + [NewToast(id, message, Some(Error), duration)]
    {
      r := AddToast(id, message, Some(Error), duration);
    }

    /** `showInfo`: `addToast` with the info kind. */
    method ShowInfo(id: int, message: string, duration: Option<int>) returns (r: int)
      modifies this
      ensures r == id
      ensures toasts == old(toasts) + [NewToast(id, message, Some(Info), duration)]
    {
      r := AddToast(id, message, Some(Info), duration);
    }

    /** `showWarning`: `addToast` with the warning kind. */
    method ShowWarning(id: int, message: string, duration: Option<int>) returns (r: int)
      modifies this
      ensures r == id
      ensures toasts == old(toasts) + [NewToast(id, message, Some(Warning), duration)]
    {
      r := AddToast(id, message, Some(Warning), duration);
    }
  }
}
