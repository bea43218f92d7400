/** Page-method dispatch (`_apply_page_methods`): the descriptors in a
    request's `playwright_page_methods` are run against the page in order,
    each result written back into its descriptor. */
module PageMethods {
  import opened Common

  type Args = seq<Value>
  type KwArgs = map<string, Value>

  /** A bound page operation: called with positional and keyword arguments,
      it returns a value (already awaited) or raises. */
  type Operation = (Args, KwArgs) -> Result<Value>

  /** The page, reduced to what the dispatcher can observe: the attributes it
      can look up by name, and `wait_for_load_state(timeout=...)`. */
  datatype Page = Page(
    url: string,
    methods: map<string, Operation>,
    waitForLoadState: Option<real> -> Result<Value>
  )

  /** What a `PageMethod` names: an attribute of the page, or a callable that
      takes the page as its first argument. */
  datatype MethodRef =
    | Named(name: string)
    | Callable(call: (Page, Args, KwArgs) -> Result<Value>)

  /** `PageMethod(method, *args, **kwargs)`; `result` starts as None. */
  datatype PageMethod = PageMethod(target: MethodRef, args: Args, kwargs: KwArgs, result: Value)

  /** An item of `playwright_page_methods`: a descriptor or any other value. */
  datatype Entry = Method(pm: PageMethod) | Other(value: Value)

  /** The two warnings the dispatcher logs for entries it skips. */
  datatype Warning =
    | ExpectedPageMethod(got: Value)         // "Ignoring ...: expected PageMethod, got ..."
    | CouldNotFindMethod(skipped: PageMethod) // "Ignoring ...: could not find method"

  /** A descriptor as the user builds it: `PageMethod("title")` and friends. */
  function NewPageMethod(target: MethodRef, args: Args, kwargs: KwArgs): (pm: PageMethod)
    ensures pm.result == VNone && pm.target == target && pm.args == args && pm.kwargs == kwargs
  {
    PageMethod(target, args, kwargs, VNone)
  }

  /** Looking the descriptor up and calling it: `partial(pm.method, page)`
      for a callable, `getattr(page, pm.method)` for a name, then
      `method(*pm.args, **pm.kwargs)`, awaited.  None is the AttributeError
      of the lookup; `Some(Err(_))` is an exception raised by the call. */
  function Invoke(page: Page, pm: PageMethod): (r: Option<Result<Value>>)
    ensures pm.target.Named? ==> (r.Some? <==> pm.target.name in page.methods)
    ensures pm.target.Named? && r.Some? ==> r.value == page.methods[pm.target.name](pm.args, pm.kwargs)
    ensures pm.target.Callable? ==> r == Some(pm.target.call(page, pm.args, pm.kwargs))
  {
    match pm.target
    case Callable(f) => Some(f(page, pm.args, pm.kwargs))
    case Named(n) => if n in page.methods then Some(page.methods[n](pm.args, pm.kwargs)) else None
  }

  /** What handling one entry does. */
  datatype StepResult =
    | Skipped(warning: Warning)
    | Applied(updated: Entry)
    | Raised(written: Entry, error: Error)

  function Step(page: Page, timeout: Option<real>, e: Entry): StepResult
  {
    match e
    case Other(v) => Skipped(ExpectedPageMethod(v))
    case Method(pm) =>
      match Invoke(page, pm)
      case None => Skipped(CouldNotFindMethod(pm))
      case Some(called) =>
        match called
        case Err(err) => Raised(e, err)
        case Ok(v) =>
          var done := Method(pm.(result := v));
          match page.waitForLoadState(timeout)
          case Err(err) => Raised(done, err)
          case Ok(_) => Applied(done)
  }

  /** The whole walk: the entries afterwards, the warnings logged, and the
      exception that escaped, if any. */
  datatype Outcome = Outcome(entries: seq<Entry>, warnings: seq<Warning>, error: Option<Error>)

  /** One entry's step followed by the walk of the entries after it. */
  function Combine(e: Entry, step: StepResult, tail: seq<Entry>, rest: Outcome): (r: Outcome)
    requires |rest.entries| == |tail|
    ensures |r.entries| == 1 + |tail|
  {
    match step
    case Raised(written, err) => Outcome([written] + tail, [], Some(err))
    case Skipped(w) => Outcome([e] + rest.entries, [w] + rest.warnings, rest.error)
    case Applied(updated) => Outcome([updated] + rest.entries, rest.warnings, rest.error)
  }

  /** Specification of the walk over `es`, from the first entry on. */
  function ApplyAll(page: Page, timeout: Option<real>, es: seq<Entry>): (r: Outcome)
    ensures |r.entries| == |es|
  {
    if es == [] then Outcome([], [], None)
    else Combine(es[0], Step(page, timeout, es[0]), es[1..], ApplyAll(page, timeout, es[1..]))
  }

  /** The walk from entry `i` on: entry `i`'s step, then the walk from `i + 1`. */
  lemma ApplyAllFrom(page: Page, timeout: Option<real>, es: seq<Entry>, i: nat)
    requires i < |es|
    ensures ApplyAll(page, timeout, es[i..]) ==
              Combine(es[i], Step(page, timeout, es[i]), es[i + 1..], ApplyAll(page, timeout, es[i + 1..]))
  {
    assert es[i..][0] == es[i];
    assert es[i..][1..] == es[i + 1..];
  }

  /** `done` entries handled without an exception, followed by the walk of the rest. */
  function After(done: seq<Entry>, logged: seq<Warning>, rest: Outcome): Outcome
  {
    Outcome(done + rest.entries, logged + rest.warnings, rest.error)
  }

  /** An entry after a step that did not raise. */
  function Processed(page: Page, timeout: Option<real>, e: Entry): Entry
  {
    ProcessedBy(e, Step(page, timeout, e))
  }

  function ProcessedBy(e: Entry, step: StepResult): Entry
  {
    match step
    case Applied(updated) => updated
    case _ => e
  }

  /** Moving an entry handled without an exception into the handled prefix. */
  lemma AfterCombine(done: seq<Entry>, logged: seq<Warning>, e: Entry, step: StepResult,
                     tail: seq<Entry>, rest: Outcome)
    requires !step.Raised? && |rest.entries| == |tail|
    ensures After(done, logged, Combine(e, step, tail, rest))
            == After(done + [ProcessedBy(e, step)], logged + StepWarnings(step), rest)
  {
    var x := ProcessedBy(e, step);
    assert done + ([x] + rest.entries) == (done + [x]) + rest.entries;
    var ws := StepWarnings(step);
    assert logged + (ws + rest.warnings) == (logged + ws) + rest.warnings;
  }

  /** The warning a step logs, if any. */
  function StepWarnings(step: StepResult): seq<Warning>
  {
    match step
    case Skipped(w) => [w]
    case _ => []
  }

  /** Handling entry `i` without an exception extends the handled prefix:
      `before` and `after` are the array's contents around the step. */
  lemma Advance(page: Page, timeout: Option<real>, es: seq<Entry>, i: nat,
                before: seq<Entry>, after: seq<Entry>, logged: seq<Warning>)
    requires i < |es| == |before| && before[i..] == es[i..]
    requires !Step(page, timeout, before[i]).Raised?
    requires after == before[i := Processed(page, timeout, before[i])]
    requires ApplyAll(page, timeout, es) == After(before[..i], logged, ApplyAll(page, timeout, es[i..]))
    ensures after[i + 1..] == es[i + 1..]
    ensures ApplyAll(page, timeout, es) ==
              After(after[..i + 1], logged + StepWarnings(Step(page, timeout, es[i])),
                    ApplyAll(page, timeout, es[i + 1..]))
  {
    assert before[i] == es[i] by { assert before[i..][0] == es[i..][0]; }
    assert after[i + 1..] == before[i + 1..] == es[i + 1..];
    assert after[..i + 1] == before[..i] + [Processed(page, timeout, es[i])];
    ApplyAllFrom(page, timeout, es, i);
    AfterCombine(before[..i], logged, es[i], Step(page, timeout, es[i]), es[i + 1..], ApplyAll(page, timeout, es[i + 1..]));
  }

  /** An exception at entry `i` ends the walk there, with the array as the
      step left it. */
  lemma StopAt(page: Page, timeout: Option<real>, es: seq<Entry>, i: nat,
               before: seq<Entry>, after: seq<Entry>, logged: seq<Warning>)
    requires i < |es| == |before| && before[i..] == es[i..]
    requires Step(page, timeout, before[i]).Raised?
    requires after == before[i := Step(page, timeout, before[i]).written]
    requires ApplyAll(page, timeout, es) == After(before[..i], logged, ApplyAll(page, timeout, es[i..]))
    ensures ApplyAll(page, timeout, es) == Outcome(after, logged, Some(Step(page, timeout, before[i]).error))
  {
    assert before[i] == es[i] by { assert before[i..][0] == es[i..][0]; }
    var step := Step(page, timeout, es[i]);
    RaisedFrom(page, timeout, es, i);
    StoppedArray(before, after, i, es[i + 1..], step.written, logged, step.error);
  }

  /** The walk from an entry that raises is that entry, rewritten, followed
      by the untouched rest. */
  lemma RaisedFrom(page: Page, timeout: Option<real>, es: seq<Entry>, i: nat)
    requires i < |es| && Step(page, timeout, es[i]).Raised?
    ensures ApplyAll(page, timeout, es[i..])
            == Outcome([Step(page, timeout, es[i]).written] + es[i + 1..], [], Some(Step(page, timeout, es[i]).error))
  {
    ApplyAllFrom(page, timeout, es, i);
  }

  /** The array after the raising step is the handled prefix, the rewritten
      entry and the untouched rest. */
  lemma StoppedArray(before: seq<Entry>, after: seq<Entry>, i: nat, tail: seq<Entry>,
                     written: Entry, logged: seq<Warning>, err: Error)
    requires i < |before| && before[i + 1..] == tail && after == before[i := written]
    ensures After(before[..i], logged, Outcome([written] + tail, [], Some(err))) == Outcome(after, logged, Some(err))
  {
    assert logged + [] == logged;
    assert after == before[..i] + ([written] + tail);
  }

  /** The body of the loop in `_apply_page_methods`, for entry `i`. */
  method HandleEntry(page: Page, timeout: Option<real>, pms: array<Entry>, i: nat)
    returns (logged: seq<Warning>, raised: Option<Error>)
    requires i < pms.Length
    modifies pms
    ensures var step := Step(page, timeout, old(pms[i]));
            && pms[..] == old(pms[..])[i := if step.Raised? then step.written else Processed(page, timeout, old(pms[i]))]
            && logged == StepWarnings(step)
            && raised == (if step.Raised? then Some(step.error) else None)
  {
    var entry := pms[i];
    logged, raised := [], None;
    match entry {
      case Other(v) =>
        logged := [ExpectedPageMethod(v)];
      case Method(pm) =>
        var invoked := Invoke(page, pm);
        if invoked.None? {
          logged := [CouldNotFindMethod(pm)];
        } else {
          var called := invoked.value;
          if called.Err? {
            return [], Some(called.error);
          }
          pms[i] := Method(pm.(result := called.value));
          var waited := page.waitForLoadState(timeout);
          if waited.Err? {
            raised := Some(waited.error);
          }
        }
    }
  }

  /** `_apply_page_methods` over a list, or over a dict's values (which are
      the same descriptor objects): each descriptor's result is written in
      place; the loop stops at the first exception a call raises. */
  method ApplyPageMethods(page: Page, timeout: Option<real>, pms: array<Entry>)
    returns (warnings: seq<Warning>, error: Option<Error>)
    modifies pms
    ensures Outcome(pms[..], warnings, error) == ApplyAll(page, timeout, old(pms[..]))
  {
    ghost var es := pms[..];
    warnings := [];
    var i := 0;
    while i < pms.Length
      invariant 0 <= i <= pms.Length
      invariant pms[i..] == es[i..]
      invariant ApplyAll(page, timeout, es) == After(pms[..i], warnings, ApplyAll(page, timeout, es[i..]))
    {
      ghost var before := pms[..];
      var logged, raised := HandleEntry(page, timeout, pms, i);
      if raised.Some? {
        StopAt(page, timeout, es, i, before, pms[..], warnings);
        return warnings, raised;
      }
      Advance(page, timeout, es, i, before, pms[..], warnings);
      warnings := warnings + logged;
      i := i + 1;
    }
    assert pms[..] == pms[..i];
    error := None;
  }

  /** Reading `playwright_page_methods` from the request meta. */
  datatype PageMethodsMeta =
    | Missing                               // no entry, or a falsy one
    | Listed(items: seq<Entry>)             // a list or tuple
    | Keyed(pairs: seq<(string, Entry)>)    // a dict, in insertion order

  /** What the loop walks: `meta.get(...) or ()`, and `.values()` for a dict. */
  function Walked(m: PageMethodsMeta): (es: seq<Entry>)
    ensures m.Missing? ==> es == []
    ensures m.Listed? ==> es == m.items
    ensures m.Keyed? ==> |es| == |m.pairs| && forall j :: 0 <= j < |es| ==> es[j] == m.pairs[j].1
  {
    match m
    case Missing => []
    case Listed(items) => items
    case Keyed(pairs) => seq(|pairs|, j requires 0 <= j < |pairs| => pairs[j].1)
  }

  /** The meta after the walk: the same container holding the walked entries. */
  function Rewritten(m: PageMethodsMeta, es: seq<Entry>): (r: PageMethodsMeta)
    requires |es| == |Walked(m)|
    ensures Walked(r) == es
    ensures r.Missing? == m.Missing? && r.Listed? == m.Listed? && r.Keyed? == m.Keyed?
    ensures m.Keyed? ==> |r.pairs| == |m.pairs| && forall j :: 0 <= j < |es| ==> r.pairs[j].0 == m.pairs[j].0
  {
    match m
    case Missing => Missing
    case Listed(_) => Listed(es)
    case Keyed(pairs) => Keyed(seq(|pairs|, j requires 0 <= j < |pairs| => (pairs[j].0, es[j])))
  }

  /** `_apply_page_methods` on the request meta: a dict is processed through
      its values and keeps its keys; the descriptors it holds are updated. */
  method ApplyRequestPageMethods(page: Page, timeout: Option<real>, meta: PageMethodsMeta)
    returns (updated: PageMethodsMeta, warnings: seq<Warning>, error: Option<Error>)
    ensures |Walked(updated)| == |Walked(meta)|
    ensures updated.Missing? == meta.Missing? && updated.Listed? == meta.Listed? && updated.Keyed? == meta.Keyed?
    ensures Outcome(Walked(updated), warnings, error) == ApplyAll(page, timeout, Walked(meta))
    ensures meta.Keyed? ==>
              && updated.Keyed? && |updated.pairs| == |meta.pairs|
              && forall j :: 0 <= j < |meta.pairs| ==> updated.pairs[j].0 == meta.pairs[j].0
    ensures meta.Missing? ==> updated == Missing && warnings == [] && error == None
  {
    var walked := Walked(meta);
    var pms := new Entry[|walked|](j requires 0 <= j < |walked| => walked[j]);
    assert pms[..] == walked;
    warnings, error := ApplyPageMethods(page, timeout, pms);
    ApplyAllShape(page, timeout, walked);
    updated := Rewritten(meta, pms[..]);
  }

  /** Only the `result` slot of a descriptor is ever written. */
  ghost predicate SameDescriptor(before: Entry, after: Entry)
  {
    match before
    case Other(_) => after == before
    case Method(pm) =>
      after.Method? && after.pm.target == pm.target
      && after.pm.args == pm.args && after.pm.kwargs == pm.kwargs
  }

  /** The walk keeps every entry in place and touches nothing but results;
      it logs at most one warning per entry. */
  lemma {:induction false} ApplyAllShape(page: Page, timeout: Option<real>, es: seq<Entry>)
    ensures |ApplyAll(page, timeout, es).entries| == |es|
    ensures |ApplyAll(page, timeout, es).warnings| <= |es|
    ensures forall j :: 0 <= j < |es| ==> SameDescriptor(es[j], ApplyAll(page, timeout, es).entries[j])
  {
    if es != [] {
      ApplyAllCons(page, timeout, es);
      ApplyAllShape(page, timeout, es[1..]);
      var r := ApplyAll(page, timeout, es);
      forall j | 0 <= j < |es|
        ensures SameDescriptor(es[j], r.entries[j])
      {
        if j > 0 && !Step(page, timeout, es[0]).Raised? {
          assert es[j] == es[1..][j - 1];
        }
      }
    }
  }

  /** Index of the first entry whose call (or the load-state wait after it)
      raises; `|es|` when none does. */
  function FirstRaise(page: Page, timeout: Option<real>, es: seq<Entry>): (k: nat)
    ensures k <= |es|
    ensures forall j :: 0 <= j < k ==> !Step(page, timeout, es[j]).Raised?
    ensures k < |es| ==> Step(page, timeout, es[k]).Raised?
  {
    if es == [] then 0
    else if Step(page, timeout, es[0]).Raised? then 0
    else 1 + FirstRaise(page, timeout, es[1..])
  }

  /** The warnings of the skipped entries among `es`, in order. */
  function SkipWarnings(page: Page, timeout: Option<real>, es: seq<Entry>): seq<Warning>
  {
    if es == [] then []
    else
      (match Step(page, timeout, es[0])
       case Skipped(w) => [w]
       case _ => [])
      + SkipWarnings(page, timeout, es[1..])
  }

  /** The walk, entry by entry: every entry before the first exception is
      handled, the raising one keeps what was written before the exception,
      and the ones after it are untouched. */
  lemma {:induction false} ApplyAllEntries(page: Page, timeout: Option<real>, es: seq<Entry>)
    ensures var r := ApplyAll(page, timeout, es);
            var k := FirstRaise(page, timeout, es);
            && (forall j :: 0 <= j < k ==> r.entries[j] == Processed(page, timeout, es[j]))
            && (forall j :: k < j < |es| ==> r.entries[j] == es[j])
            && (k < |es| ==> r.entries[k] == Step(page, timeout, es[k]).written)
  {
    if es != [] {
      ApplyAllCons(page, timeout, es);
      var r := ApplyAll(page, timeout, es);
      var rest := ApplyAll(page, timeout, es[1..]);
      var step := Step(page, timeout, es[0]);
      if step.Raised? {
        assert r.entries == [step.written] + es[1..];
        forall j | 0 < j < |es| ensures r.entries[j] == es[j] {
          assert r.entries[j] == es[1..][j - 1];
        }
      } else {
        ApplyAllEntries(page, timeout, es[1..]);
        assert r.entries == [ProcessedBy(es[0], step)] + rest.entries;
        forall j | 0 < j < |es| ensures es[j] == es[1..][j - 1] && r.entries[j] == rest.entries[j - 1] { }
      }
    }
  }

  /** The exception that escapes the walk is that of the first raising
      entry, and the warnings logged are exactly those of the entries skipped
      before it, in order. */
  lemma {:induction false} ApplyAllReport(page: Page, timeout: Option<real>, es: seq<Entry>)
    ensures var r := ApplyAll(page, timeout, es);
            var k := FirstRaise(page, timeout, es);
            && r.error == (if k < |es| then Some(Step(page, timeout, es[k]).error) else None)
            && r.warnings == SkipWarnings(page, timeout, es[..k])
  {
    if es != [] {
      ApplyAllCons(page, timeout, es);
      var k := FirstRaise(page, timeout, es);
      var step := Step(page, timeout, es[0]);
      if step.Raised? {
        assert es[..k] == [];
      } else {
        ApplyAllReport(page, timeout, es[1..]);
        assert es[..k][0] == es[0];
        assert es[..k][1..] == es[1..][..k - 1];
      }
    }
  }

  /** The inductive step of `SkippedEntryTransparent`, on `Combine` alone. */
  lemma CombineTransparent(e: Entry, step: StepResult, tail: seq<Entry>, skipped: Entry, k: nat,
                           with: Outcome, without: Outcome)
    requires k < |tail| && tail[k] == skipped
    requires |with.entries| == |tail| && |without.entries| == |tail| - 1
    requires !step.Raised? ==>
               with.entries == without.entries[..k] + [skipped] + without.entries[k..]
               && with.error == without.error
    ensures var w := Combine(e, step, tail, with);
            var o := Combine(e, step, tail[..k] + tail[k + 1..], without);
            && w.entries == o.entries[..k + 1] + [skipped] + o.entries[k + 1..]
            && w.error == o.error
  {
    var others := tail[..k] + tail[k + 1..];
    if step.Raised? {
      assert tail == tail[..k] + [skipped] + tail[k + 1..];
      assert ([step.written] + others)[..k + 1] == [step.written] + tail[..k];
      assert ([step.written] + others)[k + 1..] == tail[k + 1..];
    } else {
      var x := ProcessedBy(e, step);
      assert ([x] + without.entries)[..k + 1] == [x] + without.entries[..k];
      assert ([x] + without.entries)[k + 1..] == without.entries[k..];
    }
  }

  /** A skipped entry is transparent: the walk with it handles every other
      entry exactly as the walk without it, and ends with the same exception. */
  lemma {:induction false} SkippedEntryTransparent(page: Page, timeout: Option<real>, es: seq<Entry>, i: nat)
    requires i < |es|
    requires Step(page, timeout, es[i]).Skipped?
    ensures var with := ApplyAll(page, timeout, es);
            var without := ApplyAll(page, timeout, es[..i] + es[i + 1..]);
            && with.entries == without.entries[..i] + [es[i]] + without.entries[i..]
            && with.error == without.error
  {
    var others := es[..i] + es[i + 1..];
    if i == 0 {
      assert others == es[1..];
      SkippedHead(page, timeout, es);
    } else {
      var tail := es[1..];
      assert others[0] == es[0];
      assert others[1..] == tail[..i - 1] + tail[i..];
      assert tail[i - 1] == es[i];
      SkippedEntryTransparent(page, timeout, tail, i - 1);
      ApplyAllCons(page, timeout, others);
      CombineTransparent(es[0], Step(page, timeout, es[0]), tail, es[i], i - 1,
                         ApplyAll(page, timeout, tail), ApplyAll(page, timeout, others[1..]));
    }
  }

  /** A skipped first entry stays as it is, in front of the walk of the rest. */
  lemma SkippedHead(page: Page, timeout: Option<real>, es: seq<Entry>)
    requires es != [] && Step(page, timeout, es[0]).Skipped?
    ensures ApplyAll(page, timeout, es).entries == [es[0]] + ApplyAll(page, timeout, es[1..]).entries
    ensures ApplyAll(page, timeout, es).error == ApplyAll(page, timeout, es[1..]).error
  {
    ApplyAllCons(page, timeout, es);
  }

  /** One unfolding of the walk. */
  lemma ApplyAllCons(page: Page, timeout: Option<real>, es: seq<Entry>)
    requires es != []
    ensures ApplyAll(page, timeout, es)
            == Combine(es[0], Step(page, timeout, es[0]), es[1..], ApplyAll(page, timeout, es[1..]))
  {
  }

  /** A descriptor the walk reaches is called with its stored arguments and
      its `result` becomes the returned value; a callable receives the page
      followed by those arguments.  Nothing else about it changes. */
  lemma CallResultStored(page: Page, timeout: Option<real>, es: seq<Entry>, j: nat)
    requires j < FirstRaise(page, timeout, es)
    requires es[j].Method?
    requires Invoke(page, es[j].pm).Some?
    ensures var pm := es[j].pm;
            var returned := Invoke(page, pm).value;
            && returned.Ok?
            && ApplyAll(page, timeout, es).entries[j] == Method(pm.(result := returned.value))
            && (pm.target.Callable? ==>
                  returned == pm.target.call(page, pm.args, pm.kwargs))
  {
    ApplyAllEntries(page, timeout, es);
  }

  /** An entry that is not a descriptor, or names nothing the page has, is
      left as it is and logged, and does not stop the walk. */
  lemma SkippedEntryUntouched(page: Page, timeout: Option<real>, es: seq<Entry>, j: nat)
    requires j < |es|
    requires es[j].Other? || (es[j].pm.target.Named? && es[j].pm.target.name !in page.methods)
    ensures j != FirstRaise(page, timeout, es)
    ensures ApplyAll(page, timeout, es).entries[j] == es[j]
    ensures Step(page, timeout, es[j]) ==
              if es[j].Other? then Skipped(ExpectedPageMethod(es[j].value))
              else Skipped(CouldNotFindMethod(es[j].pm))
  {
    ApplyAllEntries(page, timeout, es);
  }
}
