/** The notification queue of frontend/src/hooks/useToast.tsx. Random ids
    are supplied by the caller and the removal timer is reduced to the delay
    it would be scheduled with. */
module Toasts {
  import opened Common

  datatype ToastKind = Success | Error | Warning | Info

  /** What a caller hands to addToast: a toast without its id. */
  datatype ToastDraft = ToastDraft(kind: ToastKind, title: string, message: Option<string>, duration: Option<int>)

  datatype Toast = Toast(id: string, kind: ToastKind, title: string, message: Option<string>, duration: Option<int>)

  const DefaultDuration: int := 5000

  const OutsideProviderMessage: string := "useToast must be used within ToastProvider"

  /** `{ ...toast, id }` */
  function WithId(draft: ToastDraft, id: string): (t: Toast)
    ensures t.id == id
    ensures t.kind == draft.kind && t.title == draft.title
    ensures t.message == draft.message && t.duration == draft.duration
  {
    Toast(id, draft.kind, draft.title, draft.message, draft.duration)
  }

  /** setToasts(prev => [...prev, newToast]) */
  function AppendToast(toasts: seq<Toast>, draft: ToastDraft, id: string): (r: seq<Toast>)
    ensures |r| == |toasts| + 1 && r[..|toasts|] == toasts
    ensures r[|toasts|] == WithId(draft, id)
  {
    toasts + [WithId(draft, id)]
  }

  /** setToasts(prev => prev.filter(toast => toast.id !== id)) */
  function DropToast(toasts: seq<Toast>, id: string): (r: seq<Toast>)
    ensures |r| <= |toasts|
  {
    Filter(toasts, (t: Toast) => t.id != id)
  }

  /** The delay the removal timer is armed with: `toast.duration || 5000`.
      Only a missing or zero duration is falsy; a negative one is kept. */
  function AutoRemoveDelay(duration: Option<int>): (delay: int)
    ensures delay != 0
    ensures duration.Some? && duration.value != 0 ==> delay == duration.value
    ensures duration.None? || duration == Some(0) ==> delay == DefaultDuration
  {
    match duration
    case None => DefaultDuration
    case Some(d) => if d == 0 then DefaultDuration else d
  }

  /** After removal no toast carries that id, and every other toast is still there. */
  lemma DropToastMembers(toasts: seq<Toast>, id: string)
    ensures forall i :: 0 <= i < |DropToast(toasts, id)| ==> DropToast(toasts, id)[i].id != id
    ensures forall i :: 0 <= i < |toasts| && toasts[i].id != id ==> toasts[i] in DropToast(toasts, id)
  {
    FilterMembers(toasts, (t: Toast) => t.id != id);
  }

  /** Removing an id that no toast carries changes nothing. */
  lemma DropUnknownIsNoOp(toasts: seq<Toast>, id: string)
    requires forall i :: 0 <= i < |toasts| ==> toasts[i].id != id
    ensures DropToast(toasts, id) == toasts
  {
    FilterKeepsAll(toasts, (t: Toast) => t.id != id);
  }

  /** A freshly added toast is taken away again by removing its id, as long
      as that id was not already in use. */
  lemma AddThenRemove(toasts: seq<Toast>, draft: ToastDraft, id: string)
    requires forall i :: 0 <= i < |toasts| ==> toasts[i].id != id
    ensures DropToast(AppendToast(toasts, draft, id), id) == toasts
  {
    FilterAppend(toasts, [WithId(draft, id)], (t: Toast) => t.id != id);
    DropUnknownIsNoOp(toasts, id);
  }

  /** Removal keeps the surviving toasts in their original order: removing
      from a concatenation removes from each part. */
  lemma DropToastSplits(a: seq<Toast>, b: seq<Toast>, id: string)
    ensures DropToast(a + b, id) == DropToast(a, id) + DropToast(b, id)
  {
    FilterAppend(a, b, (t: Toast) => t.id != id);
  }

  /** The provider's `toasts` state cell. */
  class ToastStore {
    var toasts: seq<Toast>

    constructor ()
      ensures toasts == []
    {
      toasts := [];
    }

    /** Appends the toast under the caller-supplied id and returns the delay
        after which the provider removes it again. */
    method AddToast(draft: ToastDraft, id: string) returns (delay: int)
      modifies this
      ensures toasts == AppendToast(old(toasts), draft, id)
      ensures delay == AutoRemoveDelay(draft.duration)
    {
      toasts := toasts + [WithId(draft, id)];
      delay := AutoRemoveDelay(draft.duration);
    }

    method RemoveToast(id: string)
      modifies this
      ensures toasts == DropToast(old(toasts), id)
    {
      toasts := DropToast(toasts, id);
    }
  }

  /** useToast: the nearest provider, or the error thrown outside one. */
  function UseToast(context: Option<ToastStore>): (r: Result<ToastStore, string>)
    ensures r.Ok? <==> context.Some?
    ensures r.Ok? ==> r.value == context.value
    ensures r.Err? ==> r.error == OutsideProviderMessage
  {
    match context
    case None => Err(OutsideProviderMessage)
    case Some(store) => Ok(store)
  }
}
