/** Publishing an upload: the script that puts a staged tree in place of, or over, the target, and its retries. */
module Publication {
  import opened Options

  /** A tree without symbolic links. */
  datatype Node = File(content: string) | Dir(entries: map<string, Node>)

  // Copying one tree over another

  /** Existing files are replaced by files and directories merged with directories. */
  predicate Compatible(target: Node, stage: Node)
    decreases stage
  {
    match (target, stage)
    case (File(_), File(_)) => true
    case (Dir(old_), Dir(new_)) => forall k | k in old_ && k in new_ :: Compatible(old_[k], new_[k])
    case _ => false
  }

  /** What `cp -a` of the whole stage makes of the target. */
  function Overlay(target: Node, stage: Node): Node
    decreases stage
  {
    if target.Dir? && stage.Dir? then
      Dir(map k | k in target.entries.Keys + stage.entries.Keys ::
        if k !in stage.entries then target.entries[k]
        else if k !in target.entries then stage.entries[k]
        else Overlay(target.entries[k], stage.entries[k]))
    else stage
  }

  /** What `cp -a` makes before it copies into it. */
  function Blank(stage: Node): Node {
    if stage.Dir? then Dir(map[]) else File("")
  }

  /** The target while the stage is being copied: some entries are there, and a file may hold anything. */
  predicate PartlyCopied(target: Node, stage: Node, middle: Node)
    decreases stage
  {
    match (target, stage)
    case (Dir(old_), Dir(new_)) =>
      && middle.Dir? && old_.Keys <= middle.entries.Keys <= old_.Keys + new_.Keys
      && forall k | k in middle.entries ::
        if k in new_ then PartlyCopied(if k in old_ then old_[k] else Blank(new_[k]), new_[k], middle.entries[k])
        else middle.entries[k] == old_[k]
    case _ => middle.File?
  }

  /** What may be left of a tree while it is being removed. */
  predicate Remainder(left: Node, whole: Node)
    decreases whole
  {
    match (left, whole)
    case (Dir(a), Dir(b)) => a.Keys <= b.Keys && forall k | k in a :: Remainder(a[k], b[k])
    case (File(c), File(d)) => c == d
    case _ => false
  }

  // What an overlay is

  type Path = seq<string>

  function FileAt(node: Node, path: Path): Option<string> {
    match node
    case File(content) => if path == [] then Some(content) else None
    case Dir(entries) => if path != [] && path[0] in entries then FileAt(entries[path[0]], path[1..]) else None
  }

  /** Every file of the stage is in the overlay, and every other file is the target's. */
  lemma {:induction false} OverlayFiles(target: Node, stage: Node, path: Path)
    requires Compatible(target, stage)
    ensures FileAt(Overlay(target, stage), path) ==
      if FileAt(stage, path).Some? then FileAt(stage, path) else FileAt(target, path)
    decreases |path|
  {
    if path != [] && target.Dir? {
      var k := path[0];
      if k in target.entries && k in stage.entries {
        OverlayFiles(target.entries[k], stage.entries[k], path[1..]);
      }
    }
  }

  lemma {:induction false} OverlayBlank(stage: Node)
    ensures Compatible(Blank(stage), stage) && Overlay(Blank(stage), stage) == stage
  {
    if stage.Dir? {
      assert Overlay(Blank(stage), stage).entries == stage.entries;
    }
  }

  /** Copying the stage again over an interrupted copy gives what one whole copy gives. */
  lemma {:induction false} CopyResumes(target: Node, stage: Node, middle: Node)
    requires Compatible(target, stage) && PartlyCopied(target, stage, middle)
    ensures Compatible(middle, stage) && Overlay(middle, stage) == Overlay(target, stage)
    decreases stage
  {
    if target.Dir? && stage.Dir? {
      forall k | k in middle.entries && k in stage.entries
        ensures Compatible(middle.entries[k], stage.entries[k])
        ensures Overlay(middle.entries[k], stage.entries[k]) ==
          if k in target.entries then Overlay(target.entries[k], stage.entries[k]) else stage.entries[k]
      {
        if k in target.entries {
          CopyResumes(target.entries[k], stage.entries[k], middle.entries[k]);
        } else {
          OverlayBlank(stage.entries[k]);
          CopyResumes(Blank(stage.entries[k]), stage.entries[k], middle.entries[k]);
        }
      }
      var a, b := Overlay(middle, stage).entries, Overlay(target, stage).entries;
      assert a.Keys == b.Keys;
      assert forall k | k in a :: a[k] == b[k];
      assert a == b;
    }
  }

  /** Copying what is left of the stage over a finished copy changes nothing. */
  lemma {:induction false} RemainderAddsNothing(target: Node, stage: Node, left: Node)
    requires Compatible(target, stage) && Remainder(left, stage)
    ensures Compatible(Overlay(target, stage), left)
    ensures Overlay(Overlay(target, stage), left) == Overlay(target, stage)
    decreases stage
  {
    if target.Dir? && stage.Dir? {
      var whole := Overlay(target, stage);
      forall k | k in left.entries
        ensures Compatible(whole.entries[k], left.entries[k])
        ensures Overlay(whole.entries[k], left.entries[k]) == whole.entries[k]
      {
        if k in target.entries {
          RemainderAddsNothing(target.entries[k], stage.entries[k], left.entries[k]);
        } else {
          OverlayBlank(stage.entries[k]);
          RemainderAddsNothing(Blank(stage.entries[k]), stage.entries[k], left.entries[k]);
        }
      }
      var a := Overlay(whole, left).entries;
      assert a.Keys == whole.entries.Keys;
      assert a == whole.entries;
    }
  }

  // The script

  datatype Area = Area(stage: Option<Node>, target: Option<Node>, backup: Option<Node>)

  /** Two directories are merged; otherwise the stage takes the target's place. */
  predicate Merges(a: Area) {
    a.stage.Some? && a.stage.value.Dir? && a.target.Some? && a.target.value.Dir?
  }

  predicate Publishable(a: Area) {
    a.stage.Some? && a.target.Some? ==> Compatible(a.target.value, a.stage.value)
  }

  /** What publishing leads to. */
  function Outcome(a: Area): Option<Node> {
    if a.stage.None? then a.target
    else if Merges(a) then Some(Overlay(a.target.value, a.stage.value))
    else a.stage
  }

  class Guest {
    var area: Area

    constructor (area: Area)
      ensures this.area == area
    {
      this.area := area;
    }

    /** One complete attempt of the script. */
    method Publish()
      requires Publishable(area)
      modifies this
      ensures area == Area(None, Outcome(old(area)), None)
    {
      if area.stage.None? {
        area := area.(backup := None);
        return;
      }
      if area.stage.value.Dir? && area.target.Some? && area.target.value.Dir? {
        area := area.(target := Some(Overlay(area.target.value, area.stage.value)));
        area := area.(stage := None);
        area := area.(backup := None);
      } else {
        area := area.(target := area.stage, stage := None);
        area := area.(backup := None);
      }
    }
  }

  // Interrupted attempts

  predicate PartlyRemoved(before: Option<Node>, after: Option<Node>) {
    after.None? || (before.Some? && Remainder(after.value, before.value))
  }

  /** What one attempt that is cut somewhere, perhaps at its very beginning or end, may leave. */
  predicate Cut(a: Area, b: Area) {
    if a.stage.None? then b.stage.None? && b.target == a.target && PartlyRemoved(a.backup, b.backup)
    else if Merges(a) then
      || DuringCopy(a, b)
      || (b == a.(target := Outcome(a), stage := b.stage) && PartlyRemoved(a.stage, b.stage))
      || (b.stage.None? && b.target == Outcome(a) && PartlyRemoved(a.backup, b.backup))
    else
      b == a || (b.stage.None? && b.target == a.stage && PartlyRemoved(a.backup, b.backup))
  }

  predicate DuringCopy(a: Area, b: Area)
    requires Merges(a)
  {
    && b.stage == a.stage && b.backup == a.backup && b.target.Some?
    && PartlyCopied(a.target.value, a.stage.value, b.target.value)
  }

  // An attempt, step by step

  /** `cp` makes one missing entry, without its contents, or writes to one file; what it has written may be anything. */
  predicate OneCopy(stage: Node, t: Node, u: Node)
    decreases stage, 0
  {
    match stage
    case File(_) => t.File? && u.File?
    case Dir(new_) =>
      && t.Dir? && u.Dir?
      && exists k | k in new_ :: CopiesAt(new_[k], t.entries, u.entries, k)
  }

  predicate CopiesAt(stage: Node, t: map<string, Node>, u: map<string, Node>, k: string)
    decreases stage, 1
  {
    && k in u && u == t[k := u[k]]
    && if k in t then OneCopy(stage, t[k], u[k]) else u[k] == Blank(stage)
  }

  /** `rm` removes one file or one empty directory. */
  predicate OneRemoval(t: Node, u: Node)
    decreases t, 0
  {
    t.Dir? && u.Dir? && exists k | k in t.entries :: RemovesAt(t.entries[k], t.entries, u.entries, k)
  }

  predicate RemovesAt(entry: Node, t: map<string, Node>, u: map<string, Node>, k: string)
    decreases entry, 1
  {
    if k in u then u == t[k := u[k]] && OneRemoval(entry, u[k]) else u == t - {k} && IsBare(entry)
  }

  predicate IsBare(node: Node) {
    node.File? || node.entries == map[]
  }

  /** The same where the tree itself may be the last thing to go. */
  predicate RemovalStep(t: Option<Node>, u: Option<Node>) {
    t.Some? && if u.Some? then OneRemoval(t.value, u.value) else IsBare(t.value)
  }

  datatype Phase = Testing | Copying | RemovingStage | RemovingBackup | Finished

  datatype Script = Script(phase: Phase, area: Area)

  /** One step of the script. A copy is over when copying once more would change nothing. */
  predicate ScriptStep(s: Script, t: Script) {
    var (a, b) := (s.area, t.area);
    match s.phase
    case Testing =>
      if a.stage.None? then t == Script(RemovingBackup, a)
      else if Merges(a) then t == Script(Copying, a)
      else t == Script(RemovingBackup, a.(target := a.stage, stage := None))
    case Copying =>
      && a.stage.Some? && a.target.Some?
      && ((t.phase.Copying? && b.target.Some? && b == a.(target := b.target) && OneCopy(a.stage.value, a.target.value, b.target.value))
          || (t == Script(RemovingStage, a) && Overlay(a.target.value, a.stage.value) == a.target.value))
    case RemovingStage =>
      || (t.phase.RemovingStage? && b == a.(stage := b.stage) && RemovalStep(a.stage, b.stage))
      || (t == Script(RemovingBackup, a) && a.stage.None?)
    case RemovingBackup =>
      || (t.phase.RemovingBackup? && b == a.(backup := b.backup) && RemovalStep(a.backup, b.backup))
      || (t == Script(Finished, a) && a.backup.None?)
    case Finished => false
  }

  /** An attempt from `a`, up to wherever it has got. */
  ghost predicate Attempt(a: Area, states: seq<Script>) {
    && states != [] && states[0] == Script(Testing, a)
    && forall i :: 0 < i < |states| ==> ScriptStep(states[i - 1], states[i])
  }

  /** An attempt from `a` may be cut in `b`. */
  ghost predicate Interrupts(a: Area, b: Area) {
    exists states: seq<Script> :: Attempt(a, states) && states[|states| - 1].area == b
  }

  lemma {:induction false} NothingCopied(target: Node, stage: Node)
    requires Compatible(target, stage)
    ensures PartlyCopied(target, stage, target)
    decreases stage
  {
    if target.Dir? {
      forall k | k in target.entries && k in stage.entries
        ensures PartlyCopied(target.entries[k], stage.entries[k], target.entries[k])
      {
        NothingCopied(target.entries[k], stage.entries[k]);
      }
    }
  }

  lemma {:induction false} MoreCopied(target: Node, stage: Node, t: Node, u: Node)
    requires Compatible(target, stage) && PartlyCopied(target, stage, t) && OneCopy(stage, t, u)
    ensures PartlyCopied(target, stage, u)
    decreases stage
  {
    if stage.Dir? {
      var k :| k in stage.entries && CopiesAt(stage.entries[k], t.entries, u.entries, k);
      var before := if k in target.entries then target.entries[k] else Blank(stage.entries[k]);
      OverlayBlank(stage.entries[k]);
      if k in t.entries {
        MoreCopied(before, stage.entries[k], t.entries[k], u.entries[k]);
      } else {
        NothingCopied(before, stage.entries[k]);
      }
      assert forall j | j in u.entries && j != k :: j in t.entries && u.entries[j] == t.entries[j];
    }
  }

  lemma {:induction false} NothingRemoved(node: Node)
    ensures Remainder(node, node)
    decreases node
  {
    if node.Dir? {
      forall k | k in node.entries ensures Remainder(node.entries[k], node.entries[k]) { NothingRemoved(node.entries[k]); }
    }
  }

  lemma {:induction false} MoreRemoved(whole: Node, t: Node, u: Node)
    requires Remainder(t, whole) && OneRemoval(t, u)
    ensures Remainder(u, whole)
    decreases whole
  {
    var k :| k in t.entries && RemovesAt(t.entries[k], t.entries, u.entries, k);
    if k in u.entries {
      MoreRemoved(whole.entries[k], t.entries[k], u.entries[k]);
    }
    assert forall j | j in u.entries && j != k :: j in t.entries && u.entries[j] == t.entries[j];
  }

  lemma RemovalStepRemoves(whole: Option<Node>, t: Option<Node>, u: Option<Node>)
    requires PartlyRemoved(whole, t) && RemovalStep(t, u)
    ensures PartlyRemoved(whole, u)
  {
    if u.Some? {
      MoreRemoved(whole.value, t.value, u.value);
    }
  }

  /** What is known of an attempt from `a` in each phase. */
  predicate PhaseOk(a: Area, s: Script) {
    match s.phase
    case Testing => s.area == a
    case Copying => Merges(a) && DuringCopy(a, s.area)
    case RemovingStage =>
      Merges(a) && s.area == a.(target := Outcome(a), stage := s.area.stage) && PartlyRemoved(a.stage, s.area.stage)
    case _ =>
      && s.area == Area(None, Outcome(a), s.area.backup) && PartlyRemoved(a.backup, s.area.backup)
      && (s.phase.Finished? ==> s.area.backup.None?)
  }

  lemma NextPhaseOk(a: Area, s: Script, t: Script)
    requires Publishable(a) && PhaseOk(a, s) && ScriptStep(s, t)
    ensures PhaseOk(a, t)
  {
    match s.phase
    case Testing =>
      if a.backup.Some? { NothingRemoved(a.backup.value); }
      if Merges(a) { NothingCopied(a.target.value, a.stage.value); }
    case Copying => CopyingOk(a, s, t);
    case RemovingStage =>
      if t.phase.RemovingStage? { RemovalStepRemoves(a.stage, s.area.stage, t.area.stage); }
      if a.backup.Some? { NothingRemoved(a.backup.value); }
    case RemovingBackup =>
      if t.phase.RemovingBackup? { RemovalStepRemoves(a.backup, s.area.backup, t.area.backup); }
    case Finished =>
  }

  lemma CopyingOk(a: Area, s: Script, t: Script)
    requires Publishable(a) && s.phase.Copying? && PhaseOk(a, s) && ScriptStep(s, t)
    ensures PhaseOk(a, t)
  {
    var target, stage := a.target.value, a.stage.value;
    if t.phase.Copying? {
      MoreCopied(target, stage, s.area.target.value, t.area.target.value);
    } else {
      CopyResumes(target, stage, s.area.target.value);
      NothingRemoved(stage);
    }
  }

  lemma {:induction false} AttemptOk(a: Area, states: seq<Script>)
    requires Publishable(a) && Attempt(a, states)
    ensures PhaseOk(a, states[|states| - 1])
    decreases |states|
  {
    if |states| > 1 {
      var front := states[..|states| - 1];
      assert forall i :: 0 < i < |front| ==> ScriptStep(front[i - 1], front[i]);
      AttemptOk(a, front);
      NextPhaseOk(a, front[|front| - 1], states[|states| - 1]);
    }
  }

  /** Wherever an attempt is, what it would leave if it were cut there is a `Cut`; one that is over has published. */
  lemma EveryPrefixIsCut(a: Area, states: seq<Script>)
    requires Publishable(a) && Attempt(a, states)
    ensures var last := states[|states| - 1];
      Cut(a, last.area) && (last.phase.Finished? ==> last.area == Area(None, Outcome(a), None))
  {
    AttemptOk(a, states);
    if a.backup.Some? {
      NothingRemoved(a.backup.value);
    }
    if Merges(a) {
      NothingCopied(a.target.value, a.stage.value);
    }
  }

  /** Wherever an attempt is cut, what publishing leads to stays the same. */
  lemma CutKeepsOutcome(a: Area, b: Area)
    requires Publishable(a) && Cut(a, b)
    ensures Publishable(b) && Outcome(b) == Outcome(a)
  {
    if Merges(a) {
      var target, stage := a.target.value, a.stage.value;
      if DuringCopy(a, b) {
        CopyResumes(target, stage, b.target.value);
      } else if b.stage.Some? {
        RemainderAddsNothing(target, stage, b.stage.value);
      }
    }
  }

  /** Any sequence of interrupted attempts, one after another. */
  ghost predicate Attempts(areas: seq<Area>) {
    areas != [] && forall i :: 0 < i < |areas| ==> Interrupts(areas[i - 1], areas[i])
  }

  /**
   Publication converges: whatever interrupted attempts went before, what one complete attempt will leave
   is what it would have left at the very beginning.
   */
  lemma {:induction false} PublicationConverges(areas: seq<Area>)
    requires Attempts(areas) && Publishable(areas[0])
    ensures var last := areas[|areas| - 1]; Publishable(last) && Outcome(last) == Outcome(areas[0])
    decreases |areas|
  {
    if |areas| > 1 {
      var front := areas[..|areas| - 1];
      var (a, b) := (areas[|areas| - 2], areas[|areas| - 1]);
      assert forall i :: 0 < i < |front| ==> Interrupts(areas[i - 1], areas[i]);
      PublicationConverges(front);
      var states: seq<Script> :| Attempt(a, states) && states[|states| - 1].area == b;
      EveryPrefixIsCut(a, states);
      CutKeepsOutcome(a, b);
    }
  }

  /** Interrupted attempts and then a complete one. */
  method PublishAfter(guest: Guest, ghost areas: seq<Area>)
    requires Attempts(areas) && Publishable(areas[0]) && guest.area == areas[|areas| - 1]
    modifies guest
    ensures guest.area == Area(None, Outcome(areas[0]), None)
  {
    PublicationConverges(areas);
    guest.Publish();
  }
}
