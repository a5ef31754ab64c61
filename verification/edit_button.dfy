/**
 * The submission editor (`EditButtonWithModal`): the edited values, the
 * per-identifier averages of the NumberField values (`calculateTotals`),
 * and the value-change and submit handlers.
 *
 * `calculateTotals` walks the form's elements once. For each NumberField
 * whose value parses to a number other than 0, it adds the value to the
 * running sum of the field's identifier and counts it, but when that sum
 * is exactly 0 (or absent) the sum and count restart from 0 first. The
 * result maps each identifier to its sum divided by its count.
 */
module EditButton {
  import opened Wrappers
  import opened Elements

  /** `parseFloat`: a number, or None for NaN. */
  type Parser = string -> Option<real>

  /** `parseFloat("0")` is 0. */
  ghost predicate ParsesZeroAsZero(parse: Parser) {
    parse("0") == Some(0.0)
  }

  /** A field's group: `extraAttributes?.identifier || ""`. */
  function Identifier(e: Instance): (k: string)
    ensures e.extraAttributes.None? ==> k == ""
    ensures (e.extraAttributes.Some? && "identifier" in e.extraAttributes.value
             && e.extraAttributes.value["identifier"].Str?)
            ==> k == e.extraAttributes.value["identifier"].s
    ensures (e.extraAttributes.Some? && ("identifier" !in e.extraAttributes.value
             || !e.extraAttributes.value["identifier"].Str?))
            ==> k == ""
  {
    match e.extraAttributes
    case None => ""
    case Some(attrs) => StringAttr(attrs, "identifier").GetOr("")
  }

  /** The text parsed for a field: `values[element.id] || "0"`. */
  function RawValue(values: map<string, string>, id: string): (s: string)
    ensures s != ""
    ensures id in values && values[id] != "" ==> s == values[id]
    ensures id !in values || values[id] == "" ==> s == "0"
  {
    if id in values && values[id] != "" then values[id] else "0"
  }

  /** The number an element adds to its group: only a NumberField whose value parses to a non-zero number adds one. */
  function Contribution(e: Instance, values: map<string, string>, parse: Parser): (r: Option<real>)
    ensures r.Some? ==> e.tag == NumberField && r.value != 0.0 && parse(RawValue(values, e.id)) == r
    ensures (e.tag == NumberField && parse(RawValue(values, e.id)).Some?
             && parse(RawValue(values, e.id)).value != 0.0) ==> r.Some?
  {
    if e.tag != NumberField then None
    else match parse(RawValue(values, e.id))
      case None => None
      case Some(x) => if x != 0.0 then Some(x) else None
  }

  /** The two dictionaries `totalsSum` and `counts`. */
  datatype Tally = Tally(sums: map<string, real>, counts: map<string, int>)

  /** Both dictionaries have the same keys and every count is at least 1. */
  predicate Consistent(t: Tally) {
    t.sums.Keys == t.counts.Keys && forall k :: k in t.counts ==> t.counts[k] >= 1
  }

  /** One iteration of the `forEach` over the form's elements. */
  function Step(t: Tally, e: Instance, values: map<string, string>, parse: Parser): (r: Tally)
    requires Consistent(t)
    ensures Consistent(r)
  {
    match Contribution(e, values, parse)
    case None => t
    case Some(x) =>
      var k := Identifier(e);
      if k !in t.sums || t.sums[k] == 0.0 then Tally(t.sums[k := x], t.counts[k := 1])
      else Tally(t.sums[k := t.sums[k] + x], t.counts[k := t.counts[k] + 1])
  }

  /** The dictionaries after the `forEach` has visited every element of `elems`, in order. */
  function Accumulate(elems: seq<Instance>, values: map<string, string>, parse: Parser): (t: Tally)
    ensures Consistent(t)
    decreases |elems|
  {
    if elems == [] then Tally(map[], map[])
    else Step(Accumulate(elems[..|elems| - 1], values, parse), elems[|elems| - 1], values, parse)
  }

  /** Visiting one more element is one more `Step`. */
  lemma AccumulateAppend(elems: seq<Instance>, e: Instance, values: map<string, string>, parse: Parser)
    ensures Accumulate(elems + [e], values, parse) == Step(Accumulate(elems, values, parse), e, values, parse)
  {
    assert (elems + [e])[..|elems|] == elems;
  }

  /** `newTotals`: each identifier with a positive count maps to its sum divided by its count. */
  function Averages(t: Tally): (avg: map<string, real>)
    requires Consistent(t)
    ensures avg.Keys == t.sums.Keys
    ensures forall k :: k in avg ==> avg[k] == t.sums[k] / t.counts[k] as real
  {
    map k | k in t.sums :: t.sums[k] / t.counts[k] as real
  }

  /** The `forEach` callback of `calculateTotals`: one element's effect on `totalsSum` and `counts`. */
  method VisitElement(totalsSum: map<string, real>, counts: map<string, int>, element: Instance,
                      values: map<string, string>, parse: Parser)
    returns (newSums: map<string, real>, newCounts: map<string, int>)
    requires Consistent(Tally(totalsSum, counts))
    ensures Tally(newSums, newCounts) == Step(Tally(totalsSum, counts), element, values, parse)
  {
    newSums, newCounts := totalsSum, counts;
    if element.tag == NumberField {
      var identifier := Identifier(element);
      var value := parse(RawValue(values, element.id));
      if value.Some? && value.value != 0.0 {
        if identifier !in newSums || newSums[identifier] == 0.0 {
          newSums := newSums[identifier := 0.0];
          newCounts := newCounts[identifier := 0];
        }
        newSums := newSums[identifier := newSums[identifier] + value.value];
        newCounts := newCounts[identifier := newCounts[identifier] + 1];
      }
    }
  }

  /** `calculateTotals(values)`. */
  method CalculateTotals(formContent: seq<Instance>, values: map<string, string>, parse: Parser)
    returns (totals: map<string, real>)
    ensures totals == Averages(Accumulate(formContent, values, parse))
  {
    var totalsSum: map<string, real> := map[];
    var counts: map<string, int> := map[];
    var i := 0;
    while i < |formContent|
      invariant 0 <= i <= |formContent|
      invariant Tally(totalsSum, counts) == Accumulate(formContent[..i], values, parse)
    {
      assert formContent[..i + 1] == formContent[..i] + [formContent[i]];
      AccumulateAppend(formContent[..i], formContent[i], values, parse);
      totalsSum, counts := VisitElement(totalsSum, counts, formContent[i], values, parse);
      i := i + 1;
    }
    assert formContent[..i] == formContent;
    totals := map[];
    var keys := totalsSum.Keys;
    while keys != {}
      invariant keys <= totalsSum.Keys
      invariant totals.Keys == totalsSum.Keys - keys
      invariant forall k :: k in totals ==> totals[k] == totalsSum[k] / counts[k] as real
      decreases keys
    {
      var identifier :| identifier in keys;
      if counts[identifier] > 0 {
        totals := totals[identifier := totalsSum[identifier] / counts[identifier] as real];
      }
      keys := keys - {identifier};
    }
    assert totals.Keys == Averages(Tally(totalsSum, counts)).Keys;
  }

  /** The sum of a sequence of values. */
  function Sum(g: seq<real>): real
    decreases |g|
  {
    if g == [] then 0.0 else Sum(g[..|g| - 1]) + g[|g| - 1]
  }

  /** The contributions of the elements in the group `ident`, in order. */
  function GroupValues(elems: seq<Instance>, values: map<string, string>, parse: Parser, ident: string)
    : (g: seq<real>)
    ensures |g| <= |elems|
    decreases |elems|
  {
    if elems == [] then []
    else
      var g := GroupValues(elems[..|elems| - 1], values, parse, ident);
      var last := elems[|elems| - 1];
      match Contribution(last, values, parse)
      case Some(x) => if Identifier(last) == ident then g + [x] else g
      case None => g
  }

  /**
   * The values of a group that its running sum still holds at the end: a
   * value arriving while the running sum is 0 discards the ones before it.
   */
  function Kept(g: seq<real>): seq<real>
    decreases |g|
  {
    if g == [] then []
    else
      var p := Kept(g[..|g| - 1]);
      if Sum(p) == 0.0 then [g[|g| - 1]] else p + [g[|g| - 1]]
  }

  /** `t` holds, for `ident`, exactly the sum and the number of the values in `kept`. */
  ghost predicate Describes(t: Tally, ident: string, kept: seq<real>) {
    (ident in t.sums <==> kept != [])
    && (ident in t.sums && ident in t.counts ==> t.sums[ident] == Sum(kept) && t.counts[ident] == |kept|)
  }

  /** One more value for a group: the kept values restart from it exactly when their sum is 0. */
  lemma KeptSnoc(g: seq<real>, x: real)
    ensures Kept(g + [x]) == if Sum(Kept(g)) == 0.0 then [x] else Kept(g) + [x]
    ensures Sum([x]) == x && Sum(Kept(g) + [x]) == Sum(Kept(g)) + x
  {
    assert (g + [x])[..|g|] == g;
    assert (Kept(g) + [x])[..|Kept(g)|] == Kept(g);
    assert [x][..0] == [];
  }

  /** One more element: the group `ident` changes only by that element's own contribution. */
  lemma StepDescribes(t: Tally, e: Instance, values: map<string, string>, parse: Parser, ident: string,
                      g: seq<real>)
    requires Consistent(t) && Describes(t, ident, Kept(g))
    ensures Describes(Step(t, e, values, parse), ident,
                      Kept(match Contribution(e, values, parse)
                           case Some(x) => if Identifier(e) == ident then g + [x] else g
                           case None => g))
  {
    match Contribution(e, values, parse)
    case None =>
    case Some(x) =>
      if Identifier(e) == ident {
        KeptSnoc(g, x);
        if ident !in t.sums || t.sums[ident] == 0.0 {
          StepFresh(t, e, values, parse, x);
        } else {
          StepAdds(t, e, values, parse, x);
        }
      } else {
        StepOtherGroup(t, e, values, parse, ident);
      }
  }

  /** A step leaves the sum and count of every other group as they were. */
  lemma StepOtherGroup(t: Tally, e: Instance, values: map<string, string>, parse: Parser, ident: string)
    requires Consistent(t) && Identifier(e) != ident
    ensures ident in Step(t, e, values, parse).sums <==> ident in t.sums
    ensures ident in t.sums ==>
      (Step(t, e, values, parse).sums[ident] == t.sums[ident]
       && Step(t, e, values, parse).counts[ident] == t.counts[ident])
  {
  }

  /** Groups are independent: each identifier's sum and count describe the kept values of its group alone. */
  lemma {:induction false} AccumulateByGroup(elems: seq<Instance>, values: map<string, string>, parse: Parser,
                                              ident: string)
    ensures Describes(Accumulate(elems, values, parse), ident, Kept(GroupValues(elems, values, parse, ident)))
    decreases |elems|
  {
    if elems != [] {
      var prefix := elems[..|elems| - 1];
      AccumulateByGroup(prefix, values, parse, ident);
      StepDescribes(Accumulate(prefix, values, parse), elems[|elems| - 1], values, parse, ident,
                    GroupValues(prefix, values, parse, ident));
    }
  }

  /** What is kept is a non-empty suffix of a non-empty group. */
  lemma {:induction false} KeptIsSuffix(g: seq<real>)
    ensures |Kept(g)| <= |g|
    ensures Kept(g) == g[|g| - |Kept(g)|..]
    ensures g != [] ==> Kept(g) != []
    decreases |g|
  {
    if g != [] {
      var prefix := g[..|g| - 1];
      KeptIsSuffix(prefix);
    }
  }

  /** When no running sum of the group returns to 0 before its end, the whole group is kept. */
  lemma {:induction false} KeptWhole(g: seq<real>)
    requires forall i :: 0 < i < |g| ==> Sum(g[..i]) != 0.0
    ensures Kept(g) == g
    decreases |g|
  {
    if g != [] {
      var prefix := g[..|g| - 1];
      forall i | 0 < i < |prefix| ensures Sum(prefix[..i]) != 0.0 {
        assert prefix[..i] == g[..i];
      }
      KeptWhole(prefix);
      if prefix != [] {
        assert Sum(g[..|prefix|]) != 0.0;
        assert g[..|prefix|] == prefix;
      }
      assert prefix + [g[|g| - 1]] == g;
    }
  }

  /** An identifier has an average exactly when its group received a non-zero value. */
  lemma AveragedIdentifiers(elems: seq<Instance>, values: map<string, string>, parse: Parser, ident: string)
    ensures ident in Averages(Accumulate(elems, values, parse)) <==> GroupValues(elems, values, parse, ident) != []
  {
    AccumulateByGroup(elems, values, parse, ident);
    KeptIsSuffix(GroupValues(elems, values, parse, ident));
  }

  /**
   * When no running sum of the group returns to 0 before its end, the
   * identifier's total is the mean of all its group's values.
   */
  lemma AverageIsGroupMean(elems: seq<Instance>, values: map<string, string>, parse: Parser, ident: string)
    requires GroupValues(elems, values, parse, ident) != []
    requires var g := GroupValues(elems, values, parse, ident);
             forall i :: 0 < i < |g| ==> Sum(g[..i]) != 0.0
    ensures ident in Averages(Accumulate(elems, values, parse))
    ensures var g := GroupValues(elems, values, parse, ident);
            Averages(Accumulate(elems, values, parse))[ident] == Sum(g) / |g| as real
  {
    var g := GroupValues(elems, values, parse, ident);
    KeptWhole(g);
    AccumulateByGroup(elems, values, parse, ident);
  }

  /**
   * For every input, each identifier's total is the mean of the values its
   * group still holds after the resets.
   */
  lemma AverageOfKept(elems: seq<Instance>, values: map<string, string>, parse: Parser, ident: string)
    requires ident in Averages(Accumulate(elems, values, parse))
    ensures Kept(GroupValues(elems, values, parse, ident)) != []
    ensures var k := Kept(GroupValues(elems, values, parse, ident));
            Averages(Accumulate(elems, values, parse))[ident] == Sum(k) / |k| as real
  {
    AccumulateByGroup(elems, values, parse, ident);
  }

  /** A field with no value, or an empty one, is read as "0" and adds nothing. */
  lemma MissingValueIgnored(elems: seq<Instance>, e: Instance, values: map<string, string>, parse: Parser)
    requires ParsesZeroAsZero(parse)
    requires e.id !in values || values[e.id] == ""
    ensures Accumulate(elems + [e], values, parse) == Accumulate(elems, values, parse)
  {
    AccumulateAppend(elems, e, values, parse);
  }

  /** Elements other than NumberFields never change the totals. */
  lemma OtherTagsIgnored(elems: seq<Instance>, e: Instance, values: map<string, string>, parse: Parser)
    requires e.tag != NumberField
    ensures Accumulate(elems + [e], values, parse) == Accumulate(elems, values, parse)
  {
    AccumulateAppend(elems, e, values, parse);
  }

  /**
   * The reset rule in action: when a group's fields hold x, -x and then y,
   * the running sum is 0 when y arrives, so the total is y rather than the
   * mean y / 3 of all three values.
   */
  lemma ResetDiscardsEarlierValues(a: Instance, b: Instance, c: Instance, values: map<string, string>, parse: Parser,
                                   x: real, y: real)
    requires Identifier(a) == Identifier(b) == Identifier(c)
    requires Contribution(a, values, parse) == Some(x)
    requires Contribution(b, values, parse) == Some(-x)
    requires Contribution(c, values, parse) == Some(y)
    ensures Averages(Accumulate([a, b, c], values, parse)).Keys == {Identifier(a)}
    ensures Averages(Accumulate([a, b, c], values, parse))[Identifier(a)] == y
  {
    var k := Identifier(a);
    var t1 := Tally(map[k := x], map[k := 1]);
    var t2 := Tally(map[k := 0.0], map[k := 2]);
    var t3 := Tally(map[k := y], map[k := 1]);
    AccumulateOne(a, values, parse);
    assert Accumulate([a], values, parse) == t1 by {
      StepFresh(Tally(map[], map[]), a, values, parse, x);
    }
    assert Accumulate([a, b], values, parse) == t2 by {
      AccumulateAppend([a], b, values, parse);
      assert [a] + [b] == [a, b];
      StepAdds(t1, b, values, parse, -x);
    }
    assert Accumulate([a, b, c], values, parse) == t3 by {
      AccumulateAppend([a, b], c, values, parse);
      assert [a, b] + [c] == [a, b, c];
      StepFresh(t2, c, values, parse, y);
    }
  }

  /** Visiting a single element is one `Step` from the empty dictionaries. */
  lemma AccumulateOne(a: Instance, values: map<string, string>, parse: Parser)
    ensures Accumulate([a], values, parse) == Step(Tally(map[], map[]), a, values, parse)
  {
    AccumulateAppend([], a, values, parse);
    assert [] + [a] == [a];
  }

  /** A contribution to a group that is absent or whose sum is 0 restarts that group at the contribution. */
  lemma StepFresh(t: Tally, e: Instance, values: map<string, string>, parse: Parser, x: real)
    requires Consistent(t) && Contribution(e, values, parse) == Some(x)
    requires Identifier(e) !in t.sums || t.sums[Identifier(e)] == 0.0
    ensures Step(t, e, values, parse) == Tally(t.sums[Identifier(e) := x], t.counts[Identifier(e) := 1])
  {
  }

  /** A contribution to a group with a non-zero sum adds to its sum and count. */
  lemma StepAdds(t: Tally, e: Instance, values: map<string, string>, parse: Parser, x: real)
    requires Consistent(t) && Contribution(e, values, parse) == Some(x)
    requires Identifier(e) in t.sums && t.sums[Identifier(e)] != 0.0
    ensures Step(t, e, values, parse)
         == Tally(t.sums[Identifier(e) := t.sums[Identifier(e)] + x], t.counts[Identifier(e) := t.counts[Identifier(e)] + 1])
  {
  }

  /** What `handleSubmit` hands to `onSubmit`. */
  datatype Payload = Payload(formValues: map<string, string>, totals: map<string, real>)

  /** The dialog's state: the edited values, the displayed totals, and the loading flag. */
  class EditDialog {
    const formContent: seq<Instance>
    const parse: Parser
    var formValues: map<string, string>
    var totals: map<string, real>
    var isLoading: bool

    /** Opening: the row's stored values and the stored totals, not recomputed. */
    constructor (rowData: map<string, string>, formContent: seq<Instance>, existingTotals: map<string, real>,
                 parse: Parser)
      ensures this.formContent == formContent && this.parse == parse
      ensures formValues == rowData && totals == existingTotals && !isLoading
    {
      this.formContent := formContent;
      this.parse := parse;
      formValues := rowData;
      totals := existingTotals;
      isLoading := false;
    }

    /** `handleValueChange(id, value)`: one entry set, then the totals recomputed from all values. */
    method HandleValueChange(id: string, value: string)
      modifies this
      ensures formValues == old(formValues)[id := value]
      ensures totals == Averages(Accumulate(formContent, formValues, parse))
      ensures isLoading == old(isLoading)
    {
      var updatedValuesCopy := formValues[id := value];
      formValues := updatedValuesCopy;
      var updatedTotals := CalculateTotals(formContent, updatedValuesCopy, parse);
      totals := updatedTotals;
    }

    /**
     * `handleSubmit`: hands the current values and totals to `onSubmit`
     * (whose failure is the parameter `onSubmitThrows`); the loader is off
     * afterwards either way.
     */
    method HandleSubmit(onSubmitThrows: bool) returns (sent: Payload, succeeded: bool)
      modifies this
      ensures sent == Payload(old(formValues), old(totals))
      ensures succeeded == !onSubmitThrows
      ensures !isLoading && formValues == old(formValues) && totals == old(totals)
    {
      isLoading := true;
      sent := Payload(formValues, totals);
      succeeded := !onSubmitThrows;
      isLoading := false;
    }
  }
}
