/** Regrouping the findings of the judge session before they are normalized. */
module Regroup {
  import opened Basics
  import opened Judge
  import JudgeProofs

  /** The outputs of a table of groups, in group order. */
  function Groups(order: seq<Source>, grouped: map<Source, seq<Candidate>>): seq<Output>
    requires forall s :: s in order ==> s in grouped
  {
    seq(|order|, i requires 0 <= i < |order| => Output(order[i], grouped[order[i]]))
  }

  /** The candidates a source reported, in order. */
  function FromSource(items: seq<Item>, source: Source): seq<Candidate> {
    if items == [] then []
    else
      var last := items[|items| - 1];
      FromSource(items[..|items| - 1], source) + (if last.source == source then [last.candidate] else [])
  }

  lemma {:induction false} FlattenUpdate(outputs: seq<Output>, i: nat, c: Candidate)
    requires i < |outputs|
    ensures multiset(Flatten(outputs[i := Output(outputs[i].source, outputs[i].findings + [c])]))
         == multiset(Flatten(outputs)) + multiset{Item(outputs[i].source, c)}
  {
    var n := |outputs| - 1;
    var updated := outputs[i := Output(outputs[i].source, outputs[i].findings + [c])];
    if i == n {
      assert updated[..n] == outputs[..n];
      assert ItemsOf(updated[n].source, updated[n].findings) == ItemsOf(outputs[n].source, outputs[n].findings)
        + [Item(outputs[n].source, c)];
    } else {
      FlattenUpdate(outputs[..n], i, c);
      assert updated[..n] == outputs[..n][i := updated[i]];
    }
  }

  lemma FlattenAppend(outputs: seq<Output>, source: Source)
    ensures Flatten(outputs + [Output(source, [])]) == Flatten(outputs)
  {
    assert (outputs + [Output(source, [])])[..|outputs|] == outputs;
  }

  ghost predicate Table(order: seq<Source>, grouped: map<Source, seq<Candidate>>) {
    Distinct(order) && forall s :: s in order <==> s in grouped
  }

  /** The table holds exactly the items, each group in order. */
  ghost predicate GroupsOf(items: seq<Item>, order: seq<Source>, grouped: map<Source, seq<Candidate>>) {
    && Table(order, grouped)
    && multiset(Flatten(Groups(order, grouped))) == multiset(items)
    && (forall s :: s in grouped ==> grouped[s] == FromSource(items, s))
    && (forall s :: s !in grouped ==> FromSource(items, s) == [])
  }

  /** `setdefault` changes nothing. */
  lemma NewGroup(items: seq<Item>, order: seq<Source>, grouped: map<Source, seq<Candidate>>, s: Source)
    requires GroupsOf(items, order, grouped) && s !in grouped
    ensures GroupsOf(items, order + [s], grouped[s := []])
  {
    var grown := grouped[s := []];
    assert Table(order + [s], grown);
    assert forall q :: q in grown <==> q in grouped || q == s;
    assert forall q :: q in grown ==> grown[q] == FromSource(items, q);
    assert Groups(order + [s], grouped[s := []]) == Groups(order, grouped) + [Output(s, [])];
    FlattenAppend(Groups(order, grouped), s);
  }

  lemma FromSourceStep(items: seq<Item>, item: Item, s: Source)
    ensures FromSource(items + [item], s) ==
      if item.source == s then FromSource(items, s) + [item.candidate] else FromSource(items, s)
  {
    assert (items + [item])[..|items|] == items;
    assert FromSource(items, s) + [] == FromSource(items, s);
  }

  /** The table after one more finding of a known source. */
  function Grow(grouped: map<Source, seq<Candidate>>, item: Item): map<Source, seq<Candidate>>
    requires item.source in grouped
  {
    grouped[item.source := grouped[item.source] + [item.candidate]]
  }

  lemma GrowAddsOne(order: seq<Source>, grouped: map<Source, seq<Candidate>>, item: Item)
    requires Table(order, grouped) && item.source in grouped
    ensures multiset(Flatten(Groups(order, Grow(grouped, item)))) == multiset(Flatten(Groups(order, grouped)))
      + multiset{item}
  {
    var outputs := Groups(order, grouped);
    var i :| 0 <= i < |order| && order[i] == item.source;
    FlattenUpdate(outputs, i, item.candidate);
    assert Groups(order, Grow(grouped, item))
      == outputs[i := Output(outputs[i].source, outputs[i].findings + [item.candidate])];
  }

  lemma GroupGrows(items: seq<Item>, order: seq<Source>, grouped: map<Source, seq<Candidate>>, item: Item)
    requires GroupsOf(items, order, grouped) && item.source in grouped
    ensures GroupsOf(items + [item], order, Grow(grouped, item))
  {
    var grown := Grow(grouped, item);
    GrowAddsOne(order, grouped, item);
    assert multiset(items + [item]) == multiset(items) + multiset{item};
    forall s | s in grown ensures grown[s] == FromSource(items + [item], s) {
      FromSourceStep(items, item, s);
    }
    forall s | s !in grown ensures FromSource(items + [item], s) == [] {
      FromSourceStep(items, item, s);
    }
  }

  /** What the finished table means for its outputs. */
  ghost predicate Regrouped(reported: seq<Item>, outputs: seq<Output>) {
    && multiset(Flatten(outputs)) == multiset(reported)
    && (forall i, j :: 0 <= i < j < |outputs| ==> outputs[i].source != outputs[j].source)
    && (forall i :: 0 <= i < |outputs| ==> outputs[i].findings == FromSource(reported, outputs[i].source))
  }

  lemma GroupsAreRegrouped(items: seq<Item>, order: seq<Source>, grouped: map<Source, seq<Candidate>>)
    requires GroupsOf(items, order, grouped)
    ensures Regrouped(items, Groups(order, grouped))
  {
  }

  /**
     No finding is lost or invented, a group keeps the reported order, and each source has one
     group.
   */
  method JudgePayloadToReviewerOutputs(reported: seq<Item>) returns (outputs: seq<Output>)
    ensures Regrouped(reported, outputs)
  {
    var order: seq<Source>, grouped: map<Source, seq<Candidate>> := [], map[];
    NothingGrouped();
    for k := 0 to |reported|
      invariant GroupsOf(reported[..k], order, grouped)
    {
      var item := reported[k];
      assert reported[..k + 1] == reported[..k] + [item];
      if item.source !in grouped {
        NewGroup(reported[..k], order, grouped, item.source);
        order, grouped := order + [item.source], grouped[item.source := []];
      }
      GroupGrows(reported[..k], order, grouped, item);
      grouped := Grow(grouped, item);
    }
    assert reported[..|reported|] == reported;
    GroupsAreRegrouped(reported, order, grouped);
    outputs := Groups(order, grouped);
  }

  lemma NothingGrouped()
    ensures GroupsOf([], [], map[])
  {
    assert Groups([], map[]) == [];
  }

  /**
     Regrouping does not change the gate: the fold over the regrouped findings raises or accepts
     nothing exactly when the fold over the reported order does.
   */
  lemma RegroupingKeepsTheGate(reported: seq<Item>, outputs: seq<Output>, changed: ChangedLines)
    requires Regrouped(reported, outputs)
    ensures Judged(Flatten(outputs), changed).Raised? == Judged(reported, changed).Raised?
    ensures Judged(reported, changed).Ok? ==>
      (Judged(Flatten(outputs), changed).value.accepted == [] <==> Judged(reported, changed).value.accepted == [])
  {
    JudgeProofs.PermutationKeepsWinners(Flatten(outputs), reported, changed);
  }
}
