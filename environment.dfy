/** The small stock Option type used for Java's nullable references. */
module Options {
  datatype Option<+T> = None | Some(value: T)
}

/** What the recovery layer sees of its surroundings: an AIL agent with its belief base, and
    the host process with its disk, its console and the planner executables. */
module Environment {
  import opened JavaStrings
  import opened Options

  /** Where a belief came from; AIL prints it as a `[source(...)]` annotation. */
  datatype Source = Self | Percepts

  datatype Belief = Belief(fact: string, source: Source)

  /** The text `toString()` gives for a held belief: the fact followed by its annotation. */
  function Render(b: Belief): string {
    b.fact + (if b.source == Self then SelfAnnotation else PerceptsAnnotation)
  }

  predicate IsAtomChar(c: char) {
    c > ' ' && c !in "[](),&"
  }

  /** A well-formed fact name such as `hasPhone`: non-empty, no blanks, brackets, commas or `&`. */
  predicate IsAtom(s: string) {
    |s| > 0 && forall i :: 0 <= i < |s| ==> IsAtomChar(s[i])
  }

  function Facts(bs: seq<Belief>): (fs: seq<string>)
    ensures |fs| == |bs|
    ensures forall i :: 0 <= i < |bs| ==> fs[i] == bs[i].fact
  {
    if bs == [] then [] else [bs[0].fact] + Facts(bs[1..])
  }

  /** The belief base holds each fact at most once. */
  ghost predicate NoDuplicateFacts(bs: seq<Belief>) {
    forall i, j :: 0 <= i < j < |bs| ==> bs[i].fact != bs[j].fact
  }

  lemma {:induction false} FactsConcat(a: seq<Belief>, b: seq<Belief>)
    ensures Facts(a + b) == Facts(a) + Facts(b)
  {
    assert |Facts(a + b)| == |Facts(a) + Facts(b)|;
    forall i | 0 <= i < |a + b| ensures Facts(a + b)[i] == (Facts(a) + Facts(b))[i] {
      if i < |a| {} else { assert (a + b)[i] == b[i - |a|]; }
    }
  }

  /** `addBel(fact, refertoself())`: a fact not yet held is added with source `self`. */
  function Added(bs: seq<Belief>, f: string): (r: seq<Belief>)
    ensures forall x :: x in Facts(r) <==> x in Facts(bs) || x == f
  {
    if f in Facts(bs) then bs
    else
      FactsConcat(bs, [Belief(f, Self)]);
      bs + [Belief(f, Self)]
  }

  /** `delBel(fact)`: the fact is no longer held. */
  function Deleted(bs: seq<Belief>, f: string): (r: seq<Belief>)
    ensures forall x :: x in Facts(r) <==> x in Facts(bs) && x != f
  {
    if bs == [] then []
    else
      assert Facts(bs) == [bs[0].fact] + Facts(bs[1..]);
      if bs[0].fact == f then Deleted(bs[1..], f)
      else
        FactsConcat([bs[0]], Deleted(bs[1..], f));
        [bs[0]] + Deleted(bs[1..], f)
  }

  lemma AddedNoDuplicates(bs: seq<Belief>, f: string)
    ensures NoDuplicateFacts(bs) ==> NoDuplicateFacts(Added(bs, f))
  {
    if f !in Facts(bs) {
      assert forall i :: 0 <= i < |bs| ==> bs[i].fact in Facts(bs) by {
        forall i | 0 <= i < |bs| ensures bs[i].fact in Facts(bs) { assert Facts(bs)[i] == bs[i].fact; }
      }
    }
  }

  lemma {:induction false} DeletedNoDuplicates(bs: seq<Belief>, f: string)
    ensures forall b :: b in Deleted(bs, f) ==> b in bs
    ensures NoDuplicateFacts(bs) ==> NoDuplicateFacts(Deleted(bs, f))
  {
    if bs != [] {
      DeletedNoDuplicates(bs[1..], f);
      var rest := Deleted(bs[1..], f);
      if bs[0].fact != f && NoDuplicateFacts(bs) {
        assert Deleted(bs, f) == [bs[0]] + rest;
        forall i, j | 0 <= i < j < |[bs[0]] + rest| ensures ([bs[0]] + rest)[i].fact != ([bs[0]] + rest)[j].fact {
          if i == 0 {
            var b := rest[j - 1];
            assert b in bs[1..];
            var k :| 0 <= k < |bs[1..]| && bs[1..][k] == b;
            assert bs[k + 1] == b;
          } else {
            assert NoDuplicateFacts(bs[1..]);
          }
        }
      }
    }
  }

  /** The add loop of `runAction`, one `addBel` per listed fact, in order. */
  function AddAll(bs: seq<Belief>, fs: seq<string>): seq<Belief>
  {
    if fs == [] then bs else Added(AddAll(bs, fs[..|fs| - 1]), fs[|fs| - 1])
  }

  /** The delete loop of `runAction`, one `delBel` per listed fact, in order. */
  function DelAll(bs: seq<Belief>, fs: seq<string>): seq<Belief>
  {
    if fs == [] then bs else Deleted(DelAll(bs, fs[..|fs| - 1]), fs[|fs| - 1])
  }

  /** An action's effects: all additions first, then all deletions. */
  function ApplyEffects(bs: seq<Belief>, add: seq<string>, del: seq<string>): seq<Belief>
  {
    DelAll(AddAll(bs, add), del)
  }

  lemma {:induction false} AddAllHolds(bs: seq<Belief>, fs: seq<string>)
    ensures forall x :: x in Facts(AddAll(bs, fs)) <==> x in Facts(bs) || x in fs
    ensures NoDuplicateFacts(bs) ==> NoDuplicateFacts(AddAll(bs, fs))
    decreases |fs|
  {
    if fs != [] {
      var init := fs[..|fs| - 1];
      AddAllHolds(bs, init);
      AddedNoDuplicates(AddAll(bs, init), fs[|fs| - 1]);
      assert fs == init + [fs[|fs| - 1]];
    }
  }

  lemma {:induction false} DelAllHolds(bs: seq<Belief>, fs: seq<string>)
    ensures forall x :: x in Facts(DelAll(bs, fs)) <==> x in Facts(bs) && x !in fs
    ensures NoDuplicateFacts(bs) ==> NoDuplicateFacts(DelAll(bs, fs))
    decreases |fs|
  {
    if fs != [] {
      var init := fs[..|fs| - 1];
      DelAllHolds(bs, init);
      DeletedNoDuplicates(DelAll(bs, init), fs[|fs| - 1]);
      assert fs == init + [fs[|fs| - 1]];
    }
  }

  /** After an action's effects a fact is held exactly when it was held or added, and was not
      deleted: a fact both added and deleted ends up absent. */
  lemma ApplyEffectsHolds(bs: seq<Belief>, add: seq<string>, del: seq<string>)
    ensures forall x :: x in Facts(ApplyEffects(bs, add, del)) <==> (x in Facts(bs) || x in add) && x !in del
    ensures NoDuplicateFacts(bs) ==> NoDuplicateFacts(ApplyEffects(bs, add, del))
  {
    AddAllHolds(bs, add);
    DelAllHolds(AddAll(bs, add), del);
  }

  /** `extractBeliefs`' treatment of one belief: both annotations removed literally, then trimmed. */
  function Normalize(raw: string): string {
    Trim(Replace(Replace(raw, SelfAnnotation, ""), PerceptsAnnotation, ""))
  }

  /** The list `extractBeliefs` returns for a belief base. */
  function Extracted(bs: seq<Belief>): (r: seq<string>)
    ensures |r| == |bs|
    ensures forall i :: 0 <= i < |bs| ==> r[i] == Normalize(Render(bs[i]))
  {
    if bs == [] then [] else [Normalize(Render(bs[0]))] + Extracted(bs[1..])
  }

  lemma RemoveTrailingTarget(f: string, target: string)
    requires target != [] && target[0] !in f
    ensures Replace(f + target, target, "") == f
  {
    ReplaceSkipClean(f, target, "", target);
    assert target[..|target|] == target;
    assert target[|target|..] == [];
    assert Replace(target, target, "") == "" + Replace([], target, "");
  }

  lemma PerceptsHead()
    ensures PerceptsAnnotation[..|SelfAnnotation|] != SelfAnnotation
  {
    assert PerceptsAnnotation[..|SelfAnnotation|][8] != SelfAnnotation[8];
  }

  lemma PerceptsTail()
    ensures '[' !in PerceptsAnnotation[1..]
  {
    assert PerceptsAnnotation[1..] == "source(percepts)]";
  }

  /** Removing `[source(self)]` leaves `[source(percepts)]` alone. */
  lemma SelfAnnotationNotInPercepts()
    ensures Replace(PerceptsAnnotation, SelfAnnotation, "") == PerceptsAnnotation
  {
    PerceptsHead();
    PerceptsTail();
    ReplaceHeadMismatch(PerceptsAnnotation, SelfAnnotation, "");
  }

  /** Normalising the rendering of a belief on a well-formed fact gives the fact back. */
  lemma NormalizeRender(b: Belief)
    requires IsAtom(b.fact)
    ensures Normalize(Render(b)) == b.fact
  {
    var f := b.fact;
    assert '[' !in f by {
      forall i | 0 <= i < |f| ensures f[i] != '[' { assert IsAtomChar(f[i]); }
    }
    if b.source == Self {
      RemoveTrailingTarget(f, SelfAnnotation);
      ReplaceAbsent(f, PerceptsAnnotation, "");
    } else {
      SelfAnnotationNotInPercepts();
      ReplaceSkipClean(f, SelfAnnotation, "", PerceptsAnnotation);
      RemoveTrailingTarget(f, PerceptsAnnotation);
    }
    assert IsAtomChar(f[0]) && IsAtomChar(f[|f| - 1]);
    TrimUntrimmed(f);
  }

  /** On a belief base of well-formed facts, `extractBeliefs` lists exactly the held facts. */
  lemma {:induction false} ExtractedFacts(bs: seq<Belief>)
    requires forall b :: b in bs ==> IsAtom(b.fact)
    ensures Extracted(bs) == Facts(bs)
  {
    forall i | 0 <= i < |bs| ensures Extracted(bs)[i] == Facts(bs)[i] {
      NormalizeRender(bs[i]);
    }
  }

  /** A line the host process prints, reduced to what the recovery layer's properties need. */
  datatype Event =
    | Executing(action: string)   // "[agent] executing: action" on entry to startAction
    | Planned(choice: int)         // one RunPlanner.run call with this planner choice

  /** The two planners, as oracles over their argument vector and the disk they read:
      `ff` gives FF's console output, or None when starting or waiting for it fails;
      `astar` gives the single action found by the embedded search, or None when it throws. */
  datatype Planners = Planners(
    ff: (seq<string>, map<string, string>) -> Option<string>,
    astar: (seq<string>, map<string, string>) -> Option<string>)

  /** Everything a recovery can change, as one value: the agent's belief base, the disk and the
      console log. */
  datatype World = World(beliefs: seq<Belief>, files: map<string, string>, log: seq<Event>)

  /** An AIL agent: its name and its belief base. */
  class Agent {
    const name: string
    var beliefs: seq<Belief>

    constructor (name: string, beliefs: seq<Belief>)
      ensures this.name == name && this.beliefs == beliefs
    {
      this.name := name;
      this.beliefs := beliefs;
    }

    method AddBel(f: string)
      modifies this
      ensures beliefs == Added(old(beliefs), f)
    {
      if f !in Facts(beliefs) {
        beliefs := beliefs + [Belief(f, Self)];
      }
    }

    method DelBel(f: string)
      modifies this
      ensures beliefs == Deleted(old(beliefs), f)
    {
      beliefs := Deleted(beliefs, f);
    }
  }

  /** The process the agents run in: the planners it can start, its working directory and its
      console. */
  class Host {
    const planners: Planners
    var files: map<string, string>
    var log: seq<Event>

    constructor (planners: Planners, files: map<string, string>)
      ensures this.planners == planners && this.files == files && log == []
    {
      this.planners := planners;
      this.files := files;
      log := [];
    }
  }

  function Snapshot(ag: Agent, host: Host): World
    reads ag, host
  {
    World(ag.beliefs, host.files, host.log)
  }
}
