/** The shared AbloCAM helpers: the notifying value cell `DynVar`, the HTML
    wrapper `unicode`, and the call sequence of the thread-pool `Worker`. */
module Ablolib {
  import opened Common

  /** A value cell that notifies after it stores. Connected slots run
      synchronously inside the notification, so the owner of the cell calls
      its slot right after `Set` returns; `emitted` is the ghost trace of
      every value the signal has carried. */
  class DynVar {
    var value: real
    ghost const initial: real
    ghost var emitted: seq<real>

    /** The cell holds the value it was built with until the first
        notification, and from then on the value last notified. */
    ghost predicate Valid()
      reads this
    {
      if emitted == [] then value == initial else value == emitted[|emitted| - 1]
    }

    constructor(v: real)
      ensures Valid() && value == v && initial == v && emitted == []
    {
      value := v;
      initial := v;
      emitted := [];
    }

    /** The constructor's value until the first `Set`, then the last value set. */
    function Get(): (r: real)
      reads this
      requires Valid()
      ensures emitted == [] ==> r == initial
      ensures emitted != [] ==> r == emitted[|emitted| - 1]
    {
      value
    }

    /** Stores `v`, then emits exactly one notification carrying `v`, so a
        slot that calls `Get` sees `v`. */
    method Set(v: real)
      modifies this
      requires Valid()
      ensures Valid() && value == v && emitted == old(emitted) + [v]
    {
      value := v;
      emitted := emitted + [v];
    }

    /** Emits the current value again without storing (a caller's direct
        `signal.emit(cell.get())`). */
    method Notify()
      modifies this
      requires Valid()
      ensures Valid() && value == old(value) && emitted == old(emitted) + [value]
    {
      emitted := emitted + [value];
    }
  }

  const HtmlHead: string := "<html><head/><body>"
  const HtmlTail: string := "</body></html>"

  /** `unicode(s)`: `s` placed inside an HTML body, so that an entity such
      as `&larr;` renders in a Qt label. */
  function Unicode(s: string): (r: string)
    ensures |r| == |HtmlHead| + |s| + |HtmlTail|
    ensures r[..|HtmlHead|] == HtmlHead && r[|r| - |HtmlTail|..] == HtmlTail
    ensures r[|HtmlHead|..|r| - |HtmlTail|] == s
  {
    HtmlHead + s + HtmlTail
  }

  /** The inverse of `Unicode`: the body of a string in that shape. */
  function BodyOf(t: string): (r: Option<string>)
    ensures r.Some? <==> |t| >= |HtmlHead| + |HtmlTail|
                         && t[..|HtmlHead|] == HtmlHead && t[|t| - |HtmlTail|..] == HtmlTail
  {
    if |t| >= |HtmlHead| + |HtmlTail| && t[..|HtmlHead|] == HtmlHead
       && t[|t| - |HtmlTail|..] == HtmlTail
    then Some(t[|HtmlHead|..|t| - |HtmlTail|])
    else None
  }

  lemma BodyOfUnicode(s: string)
    ensures BodyOf(Unicode(s)) == Some(s)
  {
  }

  /** Every string `BodyOf` accepts is the wrapping of its body. */
  lemma {:induction false} UnicodeOfBody(t: string)
    requires BodyOf(t).Some?
    ensures Unicode(BodyOf(t).value) == t
  {
    var b := BodyOf(t).value;
    assert t == t[..|HtmlHead|] + b + t[|t| - |HtmlTail|..];
  }

  /** How one call of the worker's function ends. */
  datatype Outcome = Returned | Raised

  datatype WorkerEvent = CallFn | ErrorReported | FinishedEmitted

  /** `Worker.run`: the function is called once outside the `try`; if that
      call raises, the exception leaves `run` and `finished` is never
      emitted. Otherwise the function is called a second time inside the
      `try`, an exception there is reported, and `finished` is emitted.
      `first` and `second` are how the two calls end. */
  method Run(first: Outcome, second: Outcome) returns (events: seq<WorkerEvent>, propagated: bool)
    ensures propagated <==> first == Raised
    ensures multiset(events)[CallFn] == (if first == Raised then 1 else 2)
    ensures multiset(events)[FinishedEmitted] == (if first == Raised then 0 else 1)
    ensures multiset(events)[ErrorReported] == (if first == Returned && second == Raised then 1 else 0)
    ensures events != [] && events[0] == CallFn
    ensures !propagated ==> |events| >= 3 && events[1] == CallFn && events[|events| - 1] == FinishedEmitted
    ensures !propagated && second == Raised ==> events[2] == ErrorReported
  {
    events := [CallFn];
    if first == Raised {
      propagated := true;
      return;
    }
    events := events + [CallFn];
    if second == Raised {
      events := events + [ErrorReported];
    }
    events := events + [FinishedEmitted];
    propagated := false;
  }
}
