/** The walk over a transaction's call tree, with an explicit stack and pruned failures. */
module TraceWalk {
  import opened Wrappers
  import opened Asn1
  import opened AbiCall

  datatype Kind = CallFrame | StaticCall | DelegateCall | CallCode | Create | Create2 | SelfDestruct | Unknown

  /** A frame as the tracer reports it; `None` is a field that does not parse. */
  datatype Frame = Frame(kind: Kind, failed: bool, to: Option<nat>, input: Option<seq<Byte>>, calls: Calls)

  datatype Calls = Absent | Malformed | Listed(frames: Frames)

  datatype Frames = NoFrame | More(first: Frame, rest: Frames)

  datatype Verdict = Found | NotFound | Unavailable

  /** What the walk looks for. */
  datatype Target = Target(contract: nat, selector: seq<Byte>, call: Call)

  predicate Settles(f: Frame, t: Target) {
    && f.kind == CallFrame && f.to == Some(t.contract)
    && f.input.Some? && Decoded(f.input.value, t.selector) == Some(t.call)
  }

  predicate CleanTarget(t: Target) {
    |t.selector| == 4 && forall k :: 0 <= k < |t.call.payouts| ==> t.call.payouts[k] < Power(32)
  }

  /** Some frame in the tree settles, with neither it nor any ancestor failed. */
  predicate Accepted(f: Frame, t: Target) {
    !f.failed && (Settles(f, t) || (f.calls.Listed? && AnyAccepted(f.calls.frames, t)))
  }

  predicate AnyAccepted(fs: Frames, t: Target) {
    fs.More? && (Accepted(fs.first, t) || AnyAccepted(fs.rest, t))
  }

  /** Everything outside failed subtrees is well formed. */
  predicate WellFormed(f: Frame, t: Target) {
    && f.kind != Unknown
    && (!f.failed ==>
          && (f.kind == CallFrame ==> f.to.Some? && (f.to.value == t.contract ==> f.input.Some?))
          && !f.calls.Malformed? && (f.calls.Listed? ==> AllWellFormed(f.calls.frames, t)))
  }

  predicate AllWellFormed(fs: Frames, t: Target) {
    fs.More? ==> WellFormed(fs.first, t) && AllWellFormed(fs.rest, t)
  }

  // ---- The same, by paths ----

  function Nth(fs: Frames, k: nat): Option<Frame> {
    if fs.NoFrame? then None else if k == 0 then Some(fs.first) else Nth(fs.rest, k - 1)
  }

  /** Following the path from `f`, no frame failed and the last one settles. */
  predicate Reaches(f: Frame, path: seq<nat>, t: Target)
    decreases |path|
  {
    && !f.failed
    && if path == [] then Settles(f, t)
       else
         var child := if f.calls.Listed? then Nth(f.calls.frames, path[0]) else None;
         child.Some? && Reaches(child.value, path[1..], t)
  }

  lemma {:induction false} AcceptedHasPath(f: Frame, t: Target) returns (path: seq<nat>)
    requires Accepted(f, t)
    ensures Reaches(f, path, t)
    decreases f
  {
    if Settles(f, t) {
      path := [];
    } else {
      var k, below := AnyHasPath(f.calls.frames, t);
      path := [k] + below;
      assert path[1..] == below;
    }
  }

  lemma {:induction false} AnyHasPath(fs: Frames, t: Target) returns (k: nat, path: seq<nat>)
    requires AnyAccepted(fs, t)
    ensures Nth(fs, k).Some? && Reaches(Nth(fs, k).value, path, t)
    decreases fs
  {
    if Accepted(fs.first, t) {
      k := 0;
      path := AcceptedHasPath(fs.first, t);
    } else {
      k, path := AnyHasPath(fs.rest, t);
      k := k + 1;
    }
  }

  lemma {:induction false} NthAccepted(fs: Frames, k: nat, t: Target)
    requires Nth(fs, k).Some? && Accepted(Nth(fs, k).value, t)
    ensures AnyAccepted(fs, t)
  {
    if k > 0 {
      NthAccepted(fs.rest, k - 1, t);
    }
  }

  lemma {:induction false} PathIsAccepted(f: Frame, path: seq<nat>, t: Target)
    requires Reaches(f, path, t)
    ensures Accepted(f, t)
    decreases |path|
  {
    if path != [] {
      var child := Nth(f.calls.frames, path[0]).value;
      PathIsAccepted(child, path[1..], t);
      NthAccepted(f.calls.frames, path[0], t);
    }
  }

  ghost predicate HasPath(f: Frame, t: Target) {
    exists path: seq<nat> :: Reaches(f, path, t)
  }

  lemma AcceptedIffReached(f: Frame, t: Target)
    ensures Accepted(f, t) <==> HasPath(f, t)
  {
    if Accepted(f, t) {
      var path := AcceptedHasPath(f, t);
      assert Reaches(f, path, t);
    } else {
      forall path: seq<nat> | Reaches(f, path, t) ensures false {
        PathIsAccepted(f, path, t);
      }
    }
  }

  // ---- The walk ----

  function FrameSize(f: Frame): (n: nat)
    ensures n > 0
  {
    1 + if f.calls.Listed? then FramesSize(f.calls.frames) else 0
  }

  function FramesSize(fs: Frames): nat {
    if fs.NoFrame? then 0 else FrameSize(fs.first) + FramesSize(fs.rest)
  }

  function StackSize(stack: seq<Frame>): nat {
    if stack == [] then 0 else StackSize(stack[..|stack| - 1]) + FrameSize(stack[|stack| - 1])
  }

  /** The children pushed in order, so that the last is visited first. */
  function Pushed(stack: seq<Frame>, fs: Frames): seq<Frame>
    decreases fs
  {
    if fs.NoFrame? then stack else Pushed(stack + [fs.first], fs.rest)
  }

  predicate AnyIn(stack: seq<Frame>, t: Target) {
    exists k :: 0 <= k < |stack| && Accepted(stack[k], t)
  }

  predicate AllIn(stack: seq<Frame>, t: Target) {
    forall k :: 0 <= k < |stack| ==> WellFormed(stack[k], t)
  }

  lemma {:induction false} PushedIs(stack: seq<Frame>, fs: Frames, t: Target)
    ensures StackSize(Pushed(stack, fs)) == StackSize(stack) + FramesSize(fs)
    ensures AnyIn(Pushed(stack, fs), t) <==> AnyIn(stack, t) || AnyAccepted(fs, t)
    ensures AllIn(Pushed(stack, fs), t) <==> AllIn(stack, t) && AllWellFormed(fs, t)
    decreases fs
  {
    if fs.More? {
      PushedIs(stack + [fs.first], fs.rest, t);
      PushOne(stack, fs.first, t);
    }
  }

  lemma PushOne(stack: seq<Frame>, f: Frame, t: Target)
    ensures StackSize(stack + [f]) == StackSize(stack) + FrameSize(f)
    ensures AnyIn(stack + [f], t) <==> AnyIn(stack, t) || Accepted(f, t)
    ensures AllIn(stack + [f], t) <==> AllIn(stack, t) && WellFormed(f, t)
  {
    hide Accepted, WellFormed;
    var pushed := stack + [f];
    assert pushed[..|pushed| - 1] == stack;
    assert pushed[|stack|] == f;
    if k :| 0 <= k < |stack| && Accepted(stack[k], t) {
      assert Accepted(pushed[k], t);
    }
    if AllIn(pushed, t) {
      forall k | 0 <= k < |stack| ensures WellFormed(stack[k], t) {
        assert pushed[k] == stack[k];
      }
    }
  }

  /** Inputs are byte strings in memory. */
  predicate Loaded(f: Frame) {
    && (f.input.Some? ==> |f.input.value| < USIZE_LIMIT)
    && (f.calls.Listed? ==> AllLoaded(f.calls.frames))
  }

  predicate AllLoaded(fs: Frames) {
    fs.More? ==> Loaded(fs.first) && AllLoaded(fs.rest)
  }

  predicate LoadedIn(stack: seq<Frame>) {
    forall k :: 0 <= k < |stack| ==> Loaded(stack[k])
  }

  lemma {:induction false} PushedLoaded(stack: seq<Frame>, fs: Frames)
    requires LoadedIn(stack) && AllLoaded(fs)
    ensures LoadedIn(Pushed(stack, fs))
    decreases fs
  {
    if fs.More? {
      PushedLoaded(stack + [fs.first], fs.rest);
    }
  }

  /** The stack after a frame was popped and found not to settle. */
  method Visit(f: Frame, rest: seq<Frame>, t: Target) returns (verdict: Verdict, stack: seq<Frame>)
    requires CleanTarget(t) && Loaded(f) && LoadedIn(rest)
    ensures verdict == Unavailable ==> !WellFormed(f, t)
    ensures verdict == Found ==> Accepted(f, t)
    ensures verdict == NotFound ==>
              && (AnyIn(stack, t) <==> AnyIn(rest, t) || Accepted(f, t))
              && (AllIn(stack, t) <==> AllIn(rest, t) && WellFormed(f, t))
              && StackSize(stack) < StackSize(rest) + FrameSize(f) && LoadedIn(stack)
  {
    hide AnyIn, AllIn, StackSize, Decoded, Pushed, LoadedIn;
    stack := rest;
    if f.kind == Unknown {
      return Unavailable, stack;
    }
    if f.failed {
      return NotFound, stack;
    }
    if f.kind == CallFrame {
      if f.to.None? {
        return Unavailable, stack;
      }
      if f.to.value == t.contract {
        if f.input.None? {
          return Unavailable, stack;
        }
        var matched := CallMatches(f.input.value, t.selector, t.call);
        if matched {
          return Found, stack;
        }
      }
    }
    match f.calls {
      case Absent =>
      case Malformed => return Unavailable, stack;
      case Listed(frames) =>
        PushedIs(rest, frames, t);
        PushedLoaded(rest, frames);
        stack := Pushed(rest, frames);
    }
    verdict := NotFound;
  }

  /** `traced_settlement`'s walk. A settlement is reported only if one was executed and not undone;
      its absence only if the tree is well formed and holds none; an error only for a malformed
      tree. On well-formed trees it is therefore exact. */
  method Walk(root: Frame, t: Target) returns (verdict: Verdict)
    requires CleanTarget(t) && Loaded(root)
    ensures verdict == Found ==> Accepted(root, t)
    ensures verdict == NotFound <==> WellFormed(root, t) && !Accepted(root, t)
    ensures verdict == Unavailable ==> !WellFormed(root, t)
  {
    hide Accepted, WellFormed, StackSize;
    var stack := [root];
    SingleStack(root, t);
    while stack != []
      invariant LoadedIn(stack)
      invariant AnyIn(stack, t) <==> Accepted(root, t)
      invariant AllIn(stack, t) <==> WellFormed(root, t)
      decreases StackSize(stack)
    {
      var f, rest := stack[|stack| - 1], stack[..|stack| - 1];
      assert rest + [f] == stack;
      PushOne(rest, f, t);
      verdict, stack := Visit(f, rest, t);
      if verdict == Found {
        ImpliedByAccepted(rest, f, t);
        return;
      }
      if verdict == Unavailable {
        return;
      }
    }
    verdict := NotFound;
  }

  lemma SingleStack(f: Frame, t: Target)
    ensures AnyIn([f], t) <==> Accepted(f, t)
    ensures AllIn([f], t) <==> WellFormed(f, t)
  {
    hide Accepted, WellFormed;
    assert [f][0] == f;
  }

  lemma ImpliedByAccepted(rest: seq<Frame>, f: Frame, t: Target)
    requires Accepted(f, t)
    ensures AnyIn(rest + [f], t)
  {
    PushOne(rest, f, t);
  }
}
