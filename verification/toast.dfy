/** The toast tray: a list of notices, each with an id, appended by `toast` and removed by
    id when its five-second timer fires. The timer is the explicit event `Expire(id)`, and
    the random id is a parameter. */
module Toast {
  import opened Fetch

  /** `{...props, id}`. */
  datatype Entry = Entry(props: Notice, id: string)

  /** The ids present in a list of entries. */
  function Ids(list: seq<Entry>): (ids: set<string>)
    ensures forall i :: 0 <= i < |list| ==> list[i].id in ids
    ensures forall x :: x in ids ==> exists i :: 0 <= i < |list| && list[i].id == x
  {
    set i | 0 <= i < |list| :: list[i].id
  }

  /** `prevToasts.filter(toast => toast.id !== id)`. */
  function WithoutId(list: seq<Entry>, id: string): (r: seq<Entry>)
    ensures |r| <= |list|
    ensures forall i :: 0 <= i < |r| ==> r[i].id != id && r[i] in list
  {
    if list == [] then []
    else if list[0].id == id then WithoutId(list[1..], id)
    else [list[0]] + WithoutId(list[1..], id)
  }

  /** How many entries carry the id. */
  function CountId(list: seq<Entry>, id: string): nat
  {
    if list == [] then 0 else (if list[0].id == id then 1 else 0) + CountId(list[1..], id)
  }

  lemma {:induction false} WithoutIdAppend(a: seq<Entry>, b: seq<Entry>, id: string)
    ensures WithoutId(a + b, id) == WithoutId(a, id) + WithoutId(b, id)
  {
    if a == [] {
      assert a + b == b;
    } else {
      assert (a + b)[1..] == a[1..] + b;
      WithoutIdAppend(a[1..], b, id);
    }
  }

  /** Expiring removes exactly the entries with that id: the length drops by their
      number, and every other entry is kept. */
  lemma {:induction false} WithoutIdExact(list: seq<Entry>, id: string)
    ensures |WithoutId(list, id)| == |list| - CountId(list, id)
    ensures forall e :: e in list && e.id != id ==> e in WithoutId(list, id)
  {
    if list != [] {
      WithoutIdExact(list[1..], id);
      forall e | e in list && e.id != id ensures e in WithoutId(list, id) {
        if e != list[0] {
          assert e in list[1..];
        }
      }
    }
  }

  /** Expiring an id that is not present changes nothing. */
  lemma {:induction false} ExpireAbsent(list: seq<Entry>, id: string)
    requires id !in Ids(list)
    ensures WithoutId(list, id) == list
  {
    if list != [] {
      assert Ids(list[1..]) <= Ids(list) by {
        forall x | x in Ids(list[1..]) ensures x in Ids(list) {
          var i :| 0 <= i < |list[1..]| && list[1..][i].id == x;
          assert list[i + 1].id == x;
        }
      }
      ExpireAbsent(list[1..], id);
    }
  }

  /** With a fresh id, adding a notice and then expiring it gives back the list. */
  lemma AddThenExpire(list: seq<Entry>, props: Notice, id: string)
    requires id !in Ids(list)
    ensures WithoutId(list + [Entry(props, id)], id) == list
  {
    WithoutIdAppend(list, [Entry(props, id)], id);
    ExpireAbsent(list, id);
  }

  /** The tray of a mounted `Toaster`. */
  class Toaster {
    var toasts: seq<Entry>

    constructor ()
      ensures toasts == []
    {
      toasts := [];
    }

    /** `toast(props)`: append `{...props, id}` at the end. */
    method Toast(props: Notice, id: string)
      modifies this
      ensures toasts == old(toasts) + [Entry(props, id)]
      ensures |toasts| == |old(toasts)| + 1
    {
      toasts := toasts + [Entry(props, id)];
    }

    /** The timer of the toast with this id fires. */
    method Expire(id: string)
      modifies this
      ensures toasts == WithoutId(old(toasts), id)
      ensures |toasts| <= |old(toasts)|
      ensures id !in Ids(old(toasts)) ==> toasts == old(toasts)
    {
      if id !in Ids(toasts) {
        ExpireAbsent(toasts, id);
      }
      toasts := WithoutId(toasts, id);
    }
  }

  /** `useToast().toast(props)`: through the nearest `Toaster`, or through the default
      context value, whose `toast` does nothing, when there is none. */
  method Publish(host: Toaster?, props: Notice, id: string)
    modifies host
    ensures host != null ==> host.toasts == old(host.toasts) + [Entry(props, id)]
  {
    if host != null {
      host.Toast(props, id);
    }
  }
}
