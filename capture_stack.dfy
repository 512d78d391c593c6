/**
 * The logger's `$disabled_stack`: a last-in-first-out stack of capture
 * frames, the last element of the sequence being the top. `disable()`
 * pushes an empty frame, `enable()` pops the top one, and `log()` appends
 * to the top frame while the stack is not empty.
 */
module CaptureStack {
  import opened Options

  /** `$this->disabled_stack[] = []`: a new empty frame on top. */
  function Push<R>(st: seq<seq<R>>): (r: seq<seq<R>>)
    ensures Top(r) == Some([]) && Pop(r) == st
  {
    st + [[]]
  }

  /** What `array_pop` returns: the top frame, or `null` on an empty stack. */
  function Top<R>(st: seq<seq<R>>): (r: Option<seq<R>>)
    ensures r.None? <==> st == []
  {
    if st == [] then None else Some(st[|st| - 1])
  }

  /** The stack `array_pop` leaves: the top frame removed; an empty stack stays empty. */
  function Pop<R>(st: seq<seq<R>>): (r: seq<seq<R>>)
    ensures st != [] ==> st == r + [Top(st).value]
    ensures st == [] ==> r == []
  {
    if st == [] then [] else st[..|st| - 1]
  }

  /** Appending `x` to the top frame (`end()`, `key()`, then `[$key][] = x`). */
  function Append<R>(st: seq<seq<R>>, x: R): (r: seq<seq<R>>)
    requires st != []
    ensures Pop(r) == Pop(st) && Top(r) == Some(Top(st).value + [x])
  {
    st[..|st| - 1] + [st[|st| - 1] + [x]]
  }

  /** The stack after appending each of `xs` in turn. */
  function AppendAll<R>(st: seq<seq<R>>, xs: seq<R>): (r: seq<seq<R>>)
    requires st != []
    decreases |xs|
  {
    if xs == [] then st else AppendAll(Append(st, xs[0]), xs[1..])
  }

  /**
   * A run of appends lands in the top frame, in order, and leaves every
   * frame below the top as it was.
   */
  lemma {:induction false} AppendAllTop<R>(st: seq<seq<R>>, xs: seq<R>)
    requires st != []
    ensures Pop(AppendAll(st, xs)) == Pop(st)
    ensures Top(AppendAll(st, xs)) == Some(Top(st).value + xs)
    decreases |xs|
  {
    if xs != [] {
      var st' := Append(st, xs[0]);
      AppendAllTop(st', xs[1..]);
      assert Top(st).value + xs == Top(st).value + [xs[0]] + xs[1..];
    } else {
      assert Top(st).value + xs == Top(st).value;
    }
  }

  /**
   * Bracketing: after a push and any run of appends, the pop returns
   * exactly the appended records and restores the stack it started from.
   */
  lemma Bracket<R>(st: seq<seq<R>>, xs: seq<R>)
    ensures Top(AppendAll(Push(st), xs)) == Some(xs)
    ensures Pop(AppendAll(Push(st), xs)) == st
  {
    AppendAllTop(Push(st), xs);
    assert Top(Push(st)).value + xs == xs;
  }

  /** `k` pushes. */
  function PushN<R>(st: seq<seq<R>>, k: nat): (r: seq<seq<R>>)
    decreases k
  {
    if k == 0 then st else Push(PushN(st, k - 1))
  }

  /** `k` pops. */
  function PopN<R>(st: seq<seq<R>>, k: nat): (r: seq<seq<R>>)
    decreases k
  {
    if k == 0 then st else PopN(Pop(st), k - 1)
  }

  /**
   * Nesting: after `k` pushes, `j <= k` pops leave the stack `k - j`
   * pushes deep.
   */
  lemma {:induction false} NestedPops<R>(st: seq<seq<R>>, k: nat, j: nat)
    requires j <= k
    ensures PopN(PushN(st, k), j) == PushN(st, k - j)
    decreases j
  {
    if j > 0 {
      var below := PushN(st, k - 1);
      assert PushN(st, k) == Push(below);
      assert Pop(Push(below)) == below;
      NestedPops(st, k - 1, j - 1);
    }
  }

  /** Each push adds one frame. */
  lemma {:induction false} PushLength<R>(st: seq<seq<R>>, k: nat)
    ensures |PushN(st, k)| == |st| + k
    decreases k
  {
    if k > 0 { PushLength(st, k - 1); }
  }

  /**
   * Starting from no capture, `k` disables need exactly `k` enables
   * before the stack is empty again and capture stops.
   */
  lemma Balanced<R>(k: nat, j: nat)
    requires j <= k
    ensures PopN<R>(PushN<R>([], k), j) == [] <==> j == k
  {
    NestedPops<R>([], k, j);
    PushLength<R>([], k - j);
  }
}
