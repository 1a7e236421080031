/** The conversation registry: metadata in memory, a sidecar for each conversation on disk, and restarts. */
module Registry {
  import opened Wrappers

  datatype Meta = Meta(name: string, owner: string)

  /** A conversation directory: its sidecar, and the temporary file a sidecar is renamed from. */
  datatype Dir = Dir(meta: Option<Meta>, tmp: Option<Meta>)

  type Disk = map<string, Dir>

  // ---- The store ----

  /** How a sidecar write ends. Only `Written` is reported as a success; the two crashes end the process,
      before or after the rename. */
  datatype Write = Written | FailedOpening | FailedRenaming | CrashedBeforeRename | CrashedAfterRename

  /** How the removal of a directory ends; a partial one may or may not have reached the sidecar. */
  datatype Removal = Removed | Stuck(metaGone: bool) | CrashedRemoving(metaGone: bool)

  function DirOf(disk: Disk, id: string): Dir {
    if id in disk then disk[id] else Dir(None, None)
  }

  function AfterWrite(disk: Disk, id: string, m: Meta, w: Write): Disk {
    match w
    case Written => disk[id := Dir(Some(m), None)]
    case CrashedAfterRename => disk[id := Dir(Some(m), None)]
    case FailedOpening => disk[id := DirOf(disk, id)]
    case FailedRenaming => disk[id := DirOf(disk, id).(tmp := Some(m))]
    case CrashedBeforeRename => disk[id := DirOf(disk, id).(tmp := Some(m))]
  }

  function AfterRemoval(disk: Disk, id: string, r: Removal): Disk {
    match r
    case Removed => disk - {id}
    case Stuck(gone) => if gone then disk[id := DirOf(disk, id).(meta := None)] else disk
    case CrashedRemoving(gone) => if gone then disk[id := DirOf(disk, id).(meta := None)] else disk
  }

  /** What a startup walk finds: every directory with a sidecar. */
  function Walked(disk: Disk): map<string, Meta> {
    map id | id in disk && disk[id].meta.Some? :: disk[id].meta.value
  }

  // ---- The registry ----

  class ConversationRegistry {
    var meta: map<string, Meta>
    var disk: Disk

    /** Memory and disk are those of this state of a run. */
    ghost predicate Shows(s: State)
      reads this
    {
      meta == s.meta && disk == s.disk
    }

    /** The harness starts on whatever disk there is: what memory then has is what a restart gives. */
    constructor (disk: Disk)
      ensures forall s: State | s.disk == disk :: Shows(Restarted(s))
    {
      this.meta, this.disk := map[], disk;
      new;
      RebuildFromDisk();
    }

    method WriteMeta(id: string, m: Meta, w: Write) returns (ok: bool)
      modifies `disk
      ensures ok == w.Written? && disk == AfterWrite(old(disk), id, m, w)
    {
      if id !in disk {
        disk := disk[id := Dir(None, None)];
      }
      if w.FailedOpening? {
        return false;
      }
      disk := disk[id := disk[id].(tmp := Some(m))];
      if w.FailedRenaming? || w.CrashedBeforeRename? {
        return false;
      }
      disk := disk[id := Dir(disk[id].tmp, None)];
      ok := w.Written?;
    }

    /** Persists first, so a failed write leaves no phantom id in memory. A crash leaves what the next start finds. */
    method Mint(ghost s: State, id: string, name: string, owner: string, w: Write) returns (ok: bool)
      requires Shows(s) && id !in s.minted && id !in s.disk
      modifies this
      ensures var t := Apply(s, Step.Mint(id, name, owner, w));
              ok == w.Written? && disk == t.disk && if Crashes(w) then Restarted(t) == t else Shows(t)
    {
      ok := WriteMeta(id, Meta(name, owner), w);
      if ok {
        meta := meta[id := Meta(name, owner)];
      }
    }

    /** Rewrites the owner the registry knows; an unknown id is written with an empty one. */
    method SetName(ghost s: State, id: string, name: string, w: Write) returns (ok: bool)
      requires Shows(s)
      modifies this
      ensures var t := DoRename(s, id, name, w);
              ok == w.Written? && disk == t.disk && if Crashes(w) then Restarted(t) == t else Shows(t)
    {
      var owner := "";
      if id in meta {
        owner := meta[id].owner;
      }
      ok := WriteMeta(id, Meta(name, owner), w);
      if ok && id in meta {
        meta := meta[id := meta[id].(name := name)];
      }
    }

    /** The request to rename: refused for an id the registry does not know. */
    method SetConversationName(ghost s: State, id: string, name: string, w: Write) returns (ok: bool)
      requires Shows(s) && Inv(s)
      modifies this
      ensures var t := Apply(s, Rename(id, name, w));
              && Inv(t) && disk == t.disk && (if Crashes(w) && id in s.meta then Restarted(t) == t else Shows(t))
              && (ok ==> id in t.minted && id in t.meta && t.meta[id] == Meta(name, t.minted[id]))
    {
      var known := Owns(s, id);
      if !known {
        return false;
      }
      RenameKeeps(s, id, name, w);
      assert Settled(s, id);
      ok := SetName(s, id, name, w);
    }

    /** Wipes the directory first; a failure evicts nothing, so the deletion can be tried again. */
    method Delete(ghost s: State, id: string, r: Removal) returns (ok: bool)
      requires Shows(s)
      modifies this
      ensures var t := DoDelete(s, id, r);
              ok == r.Removed? && disk == t.disk && if r.CrashedRemoving? then Restarted(t) == t else Shows(t)
    {
      match r {
        case Removed =>
          disk := disk - {id};
        case _ =>
          if r.metaGone {
            disk := disk[id := DirOf(disk, id).(meta := None)];
          }
          return false;
      }
      meta := meta - {id};
      ok := true;
    }

    /** The request to delete: refused for an id the registry does not know. */
    method DeleteConversation(ghost s: State, id: string, r: Removal) returns (ok: bool)
      requires Shows(s) && Inv(s)
      modifies this
      ensures var t := Apply(s, Step.Delete(id, r));
              && Inv(t) && disk == t.disk && (if r.CrashedRemoving? && id in s.meta then Restarted(t) == t else Shows(t))
              && (ok ==> id in t.deleted && id !in t.meta && id !in Walked(t.disk))
    {
      var known := Owns(s, id);
      if !known {
        return false;
      }
      DeleteKeeps(s, id, r);
      ok := Delete(s, id, r);
    }

    /** A known id was minted and has not been deleted; a minted one is known unless a deletion was begun. */
    method Owns(ghost s: State, id: string) returns (known: bool)
      requires Shows(s) && Inv(s)
      ensures known <==> id in s.meta
      ensures known ==> id in s.minted && id !in s.deleted
      ensures id in s.minted && id !in s.begun ==> known
    {
      assert Settled(s, id);
      known := id in meta;
    }

    /** The ids and names of one owner's conversations, each once. */
    method ListSummaries(owner: string) returns (out: seq<(string, string)>)
      ensures forall id, name :: (id, name) in out <==> id in meta && meta[id] == Meta(name, owner)
      ensures forall i, j | 0 <= i < j < |out| :: out[i].0 != out[j].0
    {
      out := [];
      var ids := meta.Keys;
      while ids != {}
        invariant ids <= meta.Keys
        invariant forall id, name :: (id, name) in out <==> id in meta && id !in ids && meta[id] == Meta(name, owner)
        invariant forall i | 0 <= i < |out| :: out[i].0 !in ids
        invariant forall i, j | 0 <= i < j < |out| :: out[i].0 != out[j].0
        decreases |ids|
      {
        var id :| id in ids;
        assert forall i | 0 <= i < |out| :: out[i].0 != id;
        ids := ids - {id};
        if meta[id].owner == owner {
          out := out + [(id, meta[id].name)];
        }
      }
    }

    /** Seeds the registry from the sidecars; an entry already there is not overwritten. */
    method RebuildFromDisk()
      modifies `meta
      ensures meta == Walked(disk) + old(meta)
    {
      var ids := disk.Keys;
      while ids != {}
        invariant ids <= disk.Keys
        invariant forall id :: id in meta <==> id in old(meta) || (id in Walked(disk) && id !in ids)
        invariant forall id | id in meta :: meta[id] == if id in old(meta) then old(meta)[id] else Walked(disk)[id]
        decreases |ids|
      {
        var id :| id in ids;
        ids := ids - {id};
        if disk[id].meta.Some? && id !in meta {
          meta := meta[id := disk[id].meta.value];
        }
      }
    }
  }

  function KnownOwner(meta: map<string, Meta>, id: string): string {
    if id in meta then meta[id].owner else ""
  }

  // ---- Runs, one operation at a time ----

  /** The registry and the disk; and the history: who minted each id, and which deletions were begun and
      which succeeded. */
  datatype State = State(
    meta: map<string, Meta>, disk: Disk, minted: map<string, string>, begun: set<string>, deleted: set<string>)

  const EMPTY: State := State(map[], map[], map[], {}, {})

  datatype Step =
    | Mint(id: string, name: string, owner: string, w: Write)
    | Rename(id: string, name: string, w: Write)
    | Delete(id: string, r: Removal)
    | Restart

  function Restarted(s: State): State {
    s.(meta := Walked(s.disk))
  }

  predicate Crashes(w: Write) {
    w.CrashedBeforeRename? || w.CrashedAfterRename?
  }

  function DoMint(s: State, id: string, m: Meta, w: Write): State {
    var disk := AfterWrite(s.disk, id, m, w);
    var minted := if w.Written? || w.CrashedAfterRename? then s.minted[id := m.owner] else s.minted;
    var t := s.(disk := disk, minted := minted, meta := if w.Written? then s.meta[id := m] else s.meta);
    if Crashes(w) then Restarted(t) else t
  }

  /** `set_name` as it is, whether or not the id is known. */
  function DoRename(s: State, id: string, name: string, w: Write): State {
    var m := Meta(name, KnownOwner(s.meta, id));
    var t := s.(disk := AfterWrite(s.disk, id, m, w), meta := if w.Written? && id in s.meta then s.meta[id := m] else s.meta);
    if Crashes(w) then Restarted(t) else t
  }

  function DoDelete(s: State, id: string, r: Removal): State {
    var t := s.(disk := AfterRemoval(s.disk, id, r), begun := s.begun + {id},
                deleted := if r.Removed? then s.deleted + {id} else s.deleted,
                meta := if r.Removed? then s.meta - {id} else s.meta);
    if r.CrashedRemoving? then Restarted(t) else t
  }

  /** A minted id is new. Renames and deletions of an id the registry does not own are refused. */
  function Apply(s: State, step: Step): State {
    match step
    case Mint(id, name, owner, w) =>
      if id in s.minted || id in s.disk then s else DoMint(s, id, Meta(name, owner), w)
    case Rename(id, name, w) => if id in s.meta then DoRename(s, id, name, w) else s
    case Delete(id, r) => if id in s.meta then DoDelete(s, id, r) else s
    case Restart => Restarted(s)
  }

  function Run(steps: seq<Step>): State {
    if steps == [] then EMPTY else Apply(Run(steps[..|steps| - 1]), steps[|steps| - 1])
  }

  // ---- What every step keeps ----

  function SidecarOf(s: State, id: string): Option<Meta> {
    DirOf(s.disk, id).meta
  }

  /** Memory and disk agree on an id with its mint owner; only a deletion begun may have cost it its sidecar. */
  predicate Settled(s: State, id: string) {
    && (id in s.meta ==> id in s.minted && s.meta[id].owner == s.minted[id] && id !in s.deleted)
    && (SidecarOf(s, id).Some? ==> id in s.meta && s.meta[id] == SidecarOf(s, id).value)
    && (id in s.meta && SidecarOf(s, id).None? ==> id in s.begun)
    && (id in s.minted && id !in s.begun ==> id in s.meta)
    && (id in s.deleted ==> id in s.begun && id in s.minted)
    && (id in s.begun ==> id in s.minted)
  }

  ghost predicate Inv(s: State) {
    forall id :: Settled(s, id)
  }

  lemma RestartKeeps(s: State)
    requires Inv(s)
    ensures Inv(Restarted(s))
  {
    forall id ensures Settled(Restarted(s), id) {
      assert Settled(s, id);
    }
  }

  lemma MintKeeps(s: State, id: string, m: Meta, w: Write)
    requires Inv(s) && id !in s.minted && id !in s.disk
    ensures Inv(DoMint(s, id, m, w))
  {
    forall x ensures Settled(DoMint(s, id, m, w), x) {
      assert Settled(s, x);
    }
  }

  lemma RenameKeeps(s: State, id: string, name: string, w: Write)
    requires Inv(s) && id in s.meta
    ensures Inv(DoRename(s, id, name, w))
  {
    forall x ensures Settled(DoRename(s, id, name, w), x) {
      assert Settled(s, x);
    }
  }

  lemma DeleteKeeps(s: State, id: string, r: Removal)
    requires Inv(s) && id in s.meta
    ensures Inv(DoDelete(s, id, r))
  {
    assert Settled(s, id);
    forall x ensures Settled(DoDelete(s, id, r), x) {
      assert Settled(s, x);
    }
  }

  lemma {:induction false} RunKeeps(steps: seq<Step>)
    ensures Inv(Run(steps))
    decreases |steps|
  {
    if steps == [] {
      forall id ensures Settled(EMPTY, id) {
      }
    } else {
      var s := Run(steps[..|steps| - 1]);
      RunKeeps(steps[..|steps| - 1]);
      match steps[|steps| - 1]
      case Mint(id, name, owner, w) => if id !in s.minted && id !in s.disk { MintKeeps(s, id, Meta(name, owner), w); }
      case Rename(id, name, w) => if id in s.meta { RenameKeeps(s, id, name, w); }
      case Delete(id, r) => if id in s.meta { DeleteKeeps(s, id, r); }
      case Restart => RestartKeeps(s);
    }
  }

  // ---- What holds over every run ----

  /** The ids `list_summaries` gives for an owner. */
  function Listed(s: State, owner: string): set<string> {
    set id | id in s.meta && s.meta[id].owner == owner
  }

  function MintedBy(s: State, owner: string): set<string> {
    set id | id in s.minted && s.minted[id] == owner
  }

  /** Every known id has its mint owner, and every sidecar says what memory says. */
  lemma OwnersKept(steps: seq<Step>, id: string)
    ensures var s := Run(steps);
            && (id in s.meta ==> id in s.minted && s.meta[id].owner == s.minted[id])
            && (id in Walked(s.disk) ==> id in s.meta && Walked(s.disk)[id] == s.meta[id])
  {
    RunKeeps(steps);
    assert Settled(Run(steps), id);
  }

  /** An owner's list has all they minted except what was deleted; only ids whose deletion failed part way
      may be either in it or not. */
  lemma ListsOwn(steps: seq<Step>, owner: string)
    ensures var s := Run(steps);
            && MintedBy(s, owner) - s.begun <= Listed(s, owner) <= MintedBy(s, owner) - s.deleted
            && (s.begun == s.deleted ==> Listed(s, owner) == MintedBy(s, owner) - s.deleted)
  {
    RunKeeps(steps);
    var s := Run(steps);
    forall id | id in MintedBy(s, owner) - s.begun ensures id in Listed(s, owner) {
      assert Settled(s, id);
    }
    forall id | id in Listed(s, owner) ensures id in MintedBy(s, owner) - s.deleted {
      assert Settled(s, id);
    }
  }

  // ---- Names ----

  predicate Reached(w: Write) {
    w == Written || w == CrashedAfterRename
  }

  /** The name this step gives the id: a mint of it, or a rename while it is known, whose write reached its rename. */
  function NameGiven(s: State, step: Step, id: string): Option<string> {
    match step
    case Mint(x, name, _, w) => if x == id && x !in s.minted && x !in s.disk && Reached(w) then Some(name) else None
    case Rename(x, name, w) => if x == id && x in s.meta && Reached(w) then Some(name) else None
    case _ => None
  }

  /** The last name a run gave the id. */
  function LastName(steps: seq<Step>, id: string): Option<string> {
    if steps == [] then None
    else
      var init := steps[..|steps| - 1];
      var given := NameGiven(Run(init), steps[|steps| - 1], id);
      if given.Some? then given else LastName(init, id)
  }

  lemma NameAfter(s: State, step: Step, id: string)
    requires Inv(s) && id in Apply(s, step).meta
    ensures var given := NameGiven(s, step, id);
            if given.Some? then Apply(s, step).meta[id].name == given.value
            else id in s.meta && Apply(s, step).meta[id].name == s.meta[id].name
  {
    assert Settled(s, id);
  }

  /** A known id has the name of its last rename that reached the disk, and the name it was minted with if there was none,
      through failed writes, crashes and restarts. */
  lemma {:induction false} NamesKept(steps: seq<Step>, id: string)
    ensures id in Run(steps).meta ==> LastName(steps, id) == Some(Run(steps).meta[id].name)
    decreases |steps|
  {
    if steps != [] && id in Run(steps).meta {
      var init := steps[..|steps| - 1];
      RunKeeps(init);
      NamesKept(init, id);
      NameAfter(Run(init), steps[|steps| - 1], id);
    }
  }

  /** With no deletion left half done, a restart changes nothing. */
  lemma RestartChangesNothing(steps: seq<Step>)
    ensures Run(steps).begun == Run(steps).deleted ==> Restarted(Run(steps)) == Run(steps)
  {
    RunKeeps(steps);
    var s := Run(steps);
    if s.begun == s.deleted {
      forall id ensures id in Walked(s.disk) <==> id in s.meta {
        assert Settled(s, id);
      }
      forall id | id in s.meta ensures Walked(s.disk)[id] == s.meta[id] {
        assert Settled(s, id);
      }
      assert Walked(s.disk) == s.meta;
    }
  }

  lemma HistoryGrows(s: State, step: Step)
    ensures s.deleted <= Apply(s, step).deleted
    ensures forall id | id in s.minted :: id in Apply(s, step).minted && Apply(s, step).minted[id] == s.minted[id]
  {
  }

  /** Once deleted, never owned again; once minted, never another's. */
  lemma {:induction false} DeletedForGood(before: seq<Step>, after: seq<Step>, id: string)
    ensures var s, t := Run(before), Run(before + after);
            && s.deleted <= t.deleted
            && (id in s.deleted ==> id !in t.meta && id !in Walked(t.disk))
            && (id in s.minted ==> id in t.minted && t.minted[id] == s.minted[id])
    decreases |after|
  {
    if after == [] {
      assert before + after == before;
    } else {
      var shorter := after[..|after| - 1];
      assert (before + after)[..|before + after| - 1] == before + shorter;
      DeletedForGood(before, shorter, id);
      HistoryGrows(Run(before + shorter), after[|after| - 1]);
    }
    RunKeeps(before + after);
    assert Settled(Run(before + after), id);
  }

  predicate Deletes(steps: seq<Step>, id: string) {
    exists i | 0 <= i < |steps| :: steps[i].Delete? && steps[i].id == id
  }

  lemma {:induction false} NotBegun(before: seq<Step>, after: seq<Step>, id: string)
    requires id !in Run(before).begun && !Deletes(after, id)
    ensures id !in Run(before + after).begun
    decreases |after|
  {
    if after == [] {
      assert before + after == before;
    } else {
      var shorter, last := after[..|after| - 1], after[|after| - 1];
      assert !Deletes(shorter, id) by {
        assert forall i | 0 <= i < |shorter| :: shorter[i] == after[i];
      }
      NotBegun(before, shorter, id);
      assert (before + after)[..|before + after| - 1] == before + shorter;
      assert after[|after| - 1] == last;
    }
  }

  lemma RunSnoc(steps: seq<Step>, step: Step)
    ensures Run(steps + [step]) == Apply(Run(steps), step)
  {
    assert (steps + [step])[..|steps|] == steps;
  }

  /** From a mint whose write reached its rename until a deletion of the id is tried, its owner's list has the id and no other
      owner's does; from a deletion that succeeded on, nobody's does. */
  lemma ListedUntilDeleted(before: seq<Step>, step: Step, after: seq<Step>, who: string)
    requires step.Mint? || step.Delete?
    ensures var s, t := Run(before), Run(before + [step] + after);
            && (step.Mint? && step.id !in s.minted && step.id !in s.disk && Reached(step.w) && !Deletes(after, step.id) ==>
                  (step.id in Listed(t, who) <==> who == step.owner))
            && (step.Delete? && step.id in s.meta && step.r == Removed ==> step.id !in Listed(t, who))
  {
    var id, s, all := step.id, Run(before), before + [step];
    RunKeeps(before);
    RunKeeps(all + after);
    RunSnoc(before, step);
    assert Settled(s, id) && Settled(Run(all + after), id);
    DeletedForGood(all, after, id);
    if step.Mint? && id !in s.minted && id !in s.disk && Reached(step.w) && !Deletes(after, id) {
      NotBegun(all, after, id);
    }
  }

  /** A write that does not get to its rename leaves every sidecar as it was. */
  lemma UnrenamedKeepsOld(disk: Disk, id: string, m: Meta, w: Write)
    requires !w.Written? && !w.CrashedAfterRename?
    ensures Walked(AfterWrite(disk, id, m, w)) == Walked(disk)
  {
  }

  /** Without the ownership check a rename would break this, on exactly the ids the check refuses. */
  lemma GateIsNeeded(s: State, id: string, name: string)
    requires Inv(s)
    ensures Inv(DoRename(s, id, name, Written)) <==> id in s.meta
  {
    if id in s.meta {
      RenameKeeps(s, id, name, Written);
    } else {
      assert !Settled(DoRename(s, id, name, Written), id);
    }
  }

  /** An unchecked rename of a deleted id brings it back, owned by nobody. */
  lemma UncheckedRenameRevives()
    ensures var steps := [Mint("a", "n", "me", Written), Delete("a", Removed)];
            var s := Restarted(DoRename(Run(steps), "a", "m", Written));
            "a" in Run(steps).deleted && "a" in s.meta && s.meta["a"].owner == ""
  {
    var mint, delete := Mint("a", "n", "me", Written), Delete("a", Removed);
    assert [mint, delete][..1] == [mint] && [mint][..0] == [];
    assert Run([mint]) == Apply(EMPTY, mint);
    assert Run([mint, delete]) == Apply(Run([mint]), delete);
  }
}
