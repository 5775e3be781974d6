/**
 * The notification list: a toast is appended with a generated id and removed by id.
 * The id combines the clock and a random suffix; here it is the caller's argument.
 */
module UseToast {
  import opened Wrappers
  import opened Seqs

  datatype ToastType = Success | Error | Warning | Info

  datatype Toast = Toast(id: string, kind: ToastType, title: string, message: Option<string>)

  /** The list without the toasts carrying `id`. */
  function Dismissed(toasts: seq<Toast>, id: string): (r: seq<Toast>)
    ensures forall i :: 0 <= i < |r| ==> r[i].id != id && r[i] in toasts
    ensures forall i :: 0 <= i < |toasts| && toasts[i].id != id ==> toasts[i] in r
  {
    Filter(toasts, (t: Toast) => t.id != id)
  }

  predicate IdAbsent(toasts: seq<Toast>, id: string) {
    forall i :: 0 <= i < |toasts| ==> toasts[i].id != id
  }

  /** Dismissing an id no toast carries changes nothing. */
  lemma DismissAbsent(toasts: seq<Toast>, id: string)
    requires IdAbsent(toasts, id)
    ensures Dismissed(toasts, id) == toasts
  {
    FilterKeepsAll(toasts, (t: Toast) => t.id != id);
  }

  /** Showing a toast under a fresh id and dismissing it restores the list. */
  lemma ShowThenDismiss(toasts: seq<Toast>, t: Toast)
    requires IdAbsent(toasts, t.id)
    ensures Dismissed(toasts + [t], t.id) == toasts
  {
    FilterAppend(toasts, [t], (x: Toast) => x.id != t.id);
    DismissAbsent(toasts, t.id);
    assert Dismissed([t], t.id) == [];
  }

  /** Dismissing one toast keeps the others in their order. */
  lemma DismissKeepsOrder(s: seq<Toast>, u: seq<Toast>, id: string)
    ensures Dismissed(s + u, id) == Dismissed(s, id) + Dismissed(u, id)
  {
    FilterAppend(s, u, (x: Toast) => x.id != id);
  }

  class ToastHook {
    var toasts: seq<Toast>

    constructor ()
      ensures toasts == []
    {
      toasts := [];
    }

    /** `addToast`: the new toast goes last. */
    method AddToast(id: string, kind: ToastType, title: string, message: Option<string>)
      modifies this
      ensures toasts == old(toasts) + [Toast(id, kind, title, message)]
    {
      toasts := toasts + [Toast(id, kind, title, message)];
    }

    method RemoveToast(id: string)
      modifies this
      ensures toasts == Dismissed(old(toasts), id)
    {
      toasts := Dismissed(toasts, id);
    }

    method Success(id: string, title: string, message: Option<string>)
      modifies this
      ensures toasts == old(toasts) + [Toast(id, ToastType.Success, title, message)]
    {
      AddToast(id, ToastType.Success, title, message);
    }

    method Error(id: string, title: string, message: Option<string>)
      modifies this
      ensures toasts == old(toasts) + [Toast(id, ToastType.Error, title, message)]
    {
      AddToast(id, ToastType.Error, title, message);
    }

    method Warning(id: string, title: string, message: Option<string>)
      modifies this
      ensures toasts == old(toasts) + [Toast(id, ToastType.Warning, title, message)]
    {
      AddToast(id, ToastType.Warning, title, message);
    }

    method Info(id: string, title: string, message: Option<string>)
      modifies this
      ensures toasts == old(toasts) + [Toast(id, ToastType.Info, title, message)]
    {
      AddToast(id, ToastType.Info, title, message);
    }
  }
}
