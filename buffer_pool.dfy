/**
  The discipline of temporary render textures: a name is held between its
  GetTemporaryRT and its ReleaseTemporaryRT, and a blit or a texture binding
  may only refer to names that are held. `Replay` runs a recorded command
  sequence against that discipline and reports the first breach.
 */
module BufferPool {
  import opened Engine

  datatype PoolError =
    | AcquiredTwice(name: BufferName)
    | ReleasedUnheld(name: BufferName)
    | UsedUnheld

  datatype Outcome = Held(names: set<BufferName>) | Breach(error: PoolError)

  /** The temporary buffers a command reads or writes (acquire and release excluded). */
  function Referenced(c: Command): set<BufferName>
  {
    match c
    case Blit(src, dst, _) =>
      (if src.Temporary? then {src.name} else {}) + (if dst.Temporary? then {dst.name} else {})
    case SetGlobalTexture(_, t) => if t.Temporary? then {t.name} else {}
    case _ => {}
  }

  predicate IsPoolCommand(c: Command)
  {
    c.GetTemporaryRT? || c.ReleaseTemporaryRT?
  }

  /** The effect of one command on the set of held names. */
  function Effect(c: Command, held: set<BufferName>): Outcome
  {
    match c
    case GetTemporaryRT(b, _) => if b in held then Breach(AcquiredTwice(b)) else Held(held + {b})
    case ReleaseTemporaryRT(b) => if b in held then Held(held - {b}) else Breach(ReleasedUnheld(b))
    case _ => if Referenced(c) <= held then Held(held) else Breach(UsedUnheld)
  }

  function Replay(cmds: seq<Command>, held: set<BufferName>): Outcome
    decreases |cmds|
  {
    if cmds == [] then Held(held)
    else match Effect(cmds[0], held)
      case Breach(e) => Breach(e)
      case Held(h) => Replay(cmds[1..], h)
  }

  /** A recorded frame is balanced when, starting with nothing held, it
      breaches nothing and ends with nothing held. */
  predicate Balanced(cmds: seq<Command>)
  {
    Replay(cmds, {}) == Held({})
  }

  /** Replaying a concatenation replays the first part, then the second from
      where the first left off. */
  lemma {:induction false} ReplayAppend(a: seq<Command>, b: seq<Command>, held: set<BufferName>)
    ensures Replay(a + b, held) ==
      match Replay(a, held)
      case Breach(e) => Breach(e)
      case Held(h) => Replay(b, h)
    decreases |a|
  {
    if a == [] {
      assert a + b == b;
    } else {
      assert (a + b)[0] == a[0];
      assert (a + b)[1..] == a[1..] + b;
      match Effect(a[0], held)
      case Breach(e) =>
      case Held(h) => ReplayAppend(a[1..], b, h);
    }
  }

  /** Commands that only refer to held names leave the held set as it is. */
  lemma {:induction false} ReplayUses(cmds: seq<Command>, held: set<BufferName>)
    requires forall i :: 0 <= i < |cmds| ==> !IsPoolCommand(cmds[i]) && Referenced(cmds[i]) <= held
    ensures Replay(cmds, held) == Held(held)
    decreases |cmds|
  {
    if cmds != [] {
      ReplayUses(cmds[1..], held);
    }
  }
}
