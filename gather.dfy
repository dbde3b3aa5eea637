/**
 * gather: split a stream of 3C seismograms into ensembles of consecutive
 * seismograms that agree on every listed string key (-s) and int key (-i),
 * posting the key values to the ensemble metadata.  The loop keeps the
 * current ensemble and the key values it was opened with; a seismogram
 * whose values differ closes the ensemble and opens the next one.  End of
 * input writes the last ensemble and exits with 0; a missing key ends the
 * program with exit(-1) after what was already written.
 */
module Gather {
  import opened Failures
  import opened MetadataMaps
  import opened Seismograms

  /** The values a seismogram holds for the string keys and the int keys. */
  type KeyTuple = (seq<string>, seq<int>)

  /** get_string of every string key, then get_int of every int key; a missing one throws. */
  function KeyValues(md: Attributes, sk: seq<string>, ik: seq<string>): (r: Result<KeyTuple>)
    ensures r.Ok? <==> (forall k :: 0 <= k < |sk| ==> GetString(md, sk[k]).Ok?) &&
                        (forall k :: 0 <= k < |ik| ==> GetInt(md, ik[k]).Ok?)
    ensures r.Ok? ==> |r.value.0| == |sk| && |r.value.1| == |ik|
    ensures r.Ok? ==> forall k :: 0 <= k < |sk| ==> GetString(md, sk[k]) == Ok(r.value.0[k])
    ensures r.Ok? ==> forall k :: 0 <= k < |ik| ==> GetInt(md, ik[k]) == Ok(r.value.1[k])
    ensures r.Err? ==> r == Throw(MetadataGetError)
  {
    if (forall k :: 0 <= k < |sk| ==> GetString(md, sk[k]).Ok?) &&
       (forall k :: 0 <= k < |ik| ==> GetInt(md, ik[k]).Ok?)
    then Ok((seq(|sk|, k requires 0 <= k < |sk| => GetString(md, sk[k]).value),
             seq(|ik|, k requires 0 <= k < |ik| => GetInt(md, ik[k]).value)))
    else Throw(MetadataGetError)
  }

  /** Every one of the seismograms holds all the keys. */
  ghost predicate AllKeyed(ds: seq<Seis3C>, sk: seq<string>, ik: seq<string>)
  {
    forall k :: 0 <= k < |ds| ==> KeyValues(ds[k].md, sk, ik).Ok?
  }

  lemma AllKeyedStep(ds: seq<Seis3C>, n: nat, sk: seq<string>, ik: seq<string>)
    requires n < |ds| && AllKeyed(ds[..n], sk, ik) && KeyValues(ds[n].md, sk, ik).Ok?
    ensures AllKeyed(ds[..n + 1], sk, ik)
  {
    assert ds[..n + 1] == ds[..n] + [ds[n]];
  }

  lemma NotAllKeyed(ds: seq<Seis3C>, n: nat, sk: seq<string>, ik: seq<string>)
    requires n < |ds| && KeyValues(ds[n].md, sk, ik).Err?
    ensures !AllKeyed(ds, sk, ik)
  {
  }

  /**
   * keys_match: compare the string keys with stest and then the int keys
   * with itest, in list order, returning false at the first difference.  A
   * missing key met before a difference throws.
   */
  method KeysMatch(md: Attributes, sk: seq<string>, ik: seq<string>, stest: seq<string>, itest: seq<int>)
    returns (r: Result<bool>)
    requires |stest| == |sk| && |itest| == |ik|
    ensures r == Ok(true) <==> KeyValues(md, sk, ik) == Ok((stest, itest))
    ensures r.Err? ==> KeyValues(md, sk, ik).Err? && r == Throw(MetadataGetError)
  {
    var k := 0;
    while k < |sk|
      invariant 0 <= k <= |sk|
      invariant forall m :: 0 <= m < k ==> GetString(md, sk[m]) == Ok(stest[m])
    {
      var v := GetString(md, sk[k]);
      if v.Err? {
        return Throw(MetadataGetError);
      }
      if v.value != stest[k] {
        return Ok(false);
      }
      k := k + 1;
    }
    k := 0;
    while k < |ik|
      invariant 0 <= k <= |ik|
      invariant forall m :: 0 <= m < k ==> GetInt(md, ik[m]) == Ok(itest[m])
    {
      var v := GetInt(md, ik[k]);
      if v.Err? {
        return Throw(MetadataGetError);
      }
      if v.value != itest[k] {
        return Ok(false);
      }
      k := k + 1;
    }
    assert KeyValues(md, sk, ik).value.0 == stest;
    assert KeyValues(md, sk, ik).value.1 == itest;
    return Ok(true);
  }

  /** The push_back loops that fill svaltest and ivaltest from one seismogram. */
  method TestValues(md: Attributes, sk: seq<string>, ik: seq<string>) returns (r: Result<KeyTuple>)
    ensures r == KeyValues(md, sk, ik)
  {
    var svals: seq<string> := [];
    var k := 0;
    while k < |sk|
      invariant 0 <= k <= |sk| && |svals| == k
      invariant forall m :: 0 <= m < k ==> GetString(md, sk[m]) == Ok(svals[m])
    {
      var v := GetString(md, sk[k]);
      if v.Err? {
        return Throw(MetadataGetError);
      }
      svals := svals + [v.value];
      k := k + 1;
    }
    var ivals: seq<int> := [];
    k := 0;
    while k < |ik|
      invariant 0 <= k <= |ik| && |ivals| == k
      invariant forall m :: 0 <= m < k ==> GetInt(md, ik[m]) == Ok(ivals[m])
    {
      var v := GetInt(md, ik[k]);
      if v.Err? {
        return Throw(MetadataGetError);
      }
      ivals := ivals + [v.value];
      k := k + 1;
    }
    assert KeyValues(md, sk, ik).Ok?;
    assert KeyValues(md, sk, ik).value.0 == svals;
    assert KeyValues(md, sk, ik).value.1 == ivals;
    r := Ok((svals, ivals));
  }

  /**
   * reset_ensemble: clear the members and refill the test values from d.
   * The ensemble metadata is left as it was.
   */
  method ResetEnsemble(d: Seis3C, sk: seq<string>, ik: seq<string>, dout: Ensemble3C)
    returns (r: Result<(Ensemble3C, KeyTuple)>)
    ensures r.Ok? <==> KeyValues(d.md, sk, ik).Ok?
    ensures r.Ok? ==> r.value == (Ensemble3C(dout.md, []), KeyValues(d.md, sk, ik).value)
    ensures r.Err? ==> r == Throw(MetadataGetError)
  {
    var v := TestValues(d.md, sk, ik);
    if v.Err? {
      return Throw(MetadataGetError);
    }
    r := Ok((Ensemble3C(dout.md, []), v.value));
  }

  /** No later position of keys repeats the name at position k. */
  predicate LastOccurrence(keys: seq<string>, k: int)
    requires 0 <= k < |keys|
  {
    forall m :: k < m < |keys| ==> keys[m] != keys[k]
  }

  /** Metadata::put of each name in turn. */
  function PutAll(md: Attributes, keys: seq<string>, vals: seq<MDValue>): Attributes
    requires |keys| == |vals|
    decreases |keys|
  {
    if keys == [] then md else PutAll(md[keys[0] := vals[0]], keys[1..], vals[1..])
  }

  /** After the puts every name is present, the last value put under a name is the one kept, and other names keep theirs. */
  lemma {:induction false} PutAllKeepsLast(md: Attributes, keys: seq<string>, vals: seq<MDValue>)
    requires |keys| == |vals|
    ensures forall key :: key in PutAll(md, keys, vals) <==> key in md || key in keys
    ensures forall k :: 0 <= k < |keys| && LastOccurrence(keys, k) ==> PutAll(md, keys, vals)[keys[k]] == vals[k]
    ensures forall key :: key in md && key !in keys ==> PutAll(md, keys, vals)[key] == md[key]
    decreases |keys|
  {
    if keys != [] {
      PutAllKeepsLast(md[keys[0] := vals[0]], keys[1..], vals[1..]);
      assert forall k :: 1 <= k < |keys| ==> keys[1..][k - 1] == keys[k];
      assert keys == [keys[0]] + keys[1..];
    }
  }

  /** The ensemble metadata the string and int key values are posted to. */
  function GroupMetadata(sk: seq<string>, ik: seq<string>, v: KeyTuple): Attributes
    requires |v.0| == |sk| && |v.1| == |ik|
  {
    PutAll(map[], sk + ik, GroupValuesPut(v))
  }

  /** The values posted: each string value, then each int value. */
  function GroupValuesPut(v: KeyTuple): (r: seq<MDValue>)
    ensures |r| == |v.0| + |v.1|
    ensures forall k :: 0 <= k < |v.0| ==> r[k] == StringValue(v.0[k])
    ensures forall k :: 0 <= k < |v.1| ==> r[|v.0| + k] == IntValue(v.1[k])
  {
    seq(|v.0|, k requires 0 <= k < |v.0| => StringValue(v.0[k])) +
    seq(|v.1|, k requires 0 <= k < |v.1| => IntValue(v.1[k]))
  }

  /** The ensemble metadata holds exactly the keys, each with its value when the keys are distinct. */
  lemma GroupMetadataPosts(sk: seq<string>, ik: seq<string>, v: KeyTuple)
    requires |v.0| == |sk| && |v.1| == |ik|
    ensures forall key :: key in GroupMetadata(sk, ik, v) <==> key in sk || key in ik
    ensures forall k :: 0 <= k < |sk| && LastOccurrence(sk + ik, k) ==> GroupMetadata(sk, ik, v)[sk[k]] == StringValue(v.0[k])
    ensures forall k :: 0 <= k < |ik| && LastOccurrence(sk + ik, |sk| + k) ==> GroupMetadata(sk, ik, v)[ik[k]] == IntValue(v.1[k])
  {
    PutAllKeepsLast(map[], sk + ik, GroupValuesPut(v));
    forall k | 0 <= k < |ik|
      ensures (sk + ik)[|sk| + k] == ik[k]
    {
    }
  }

  /** The seismograms of a sequence of ensembles, one ensemble after the other. */
  function Flatten(gs: seq<Ensemble3C>): seq<Seis3C>
  {
    if gs == [] then [] else Flatten(gs[..|gs| - 1]) + gs[|gs| - 1].members
  }

  lemma FlattenSnoc(gs: seq<Ensemble3C>, e: Ensemble3C)
    ensures Flatten(gs + [e]) == Flatten(gs) + e.members
  {
    assert (gs + [e])[..|gs|] == gs;
  }

  /** An ensemble of seismograms that all hold the same key values, posted to its metadata. */
  ghost predicate GroupHolds(e: Ensemble3C, sk: seq<string>, ik: seq<string>)
  {
    |e.members| > 0 && KeyValues(e.members[0].md, sk, ik).Ok? &&
    (forall m :: 0 <= m < |e.members| ==> KeyValues(e.members[m].md, sk, ik) == KeyValues(e.members[0].md, sk, ik)) &&
    e.md == GroupMetadata(sk, ik, KeyValues(e.members[0].md, sk, ik).value)
  }

  /** The key values an ensemble was gathered on. */
  function GroupValues(e: Ensemble3C, sk: seq<string>, ik: seq<string>): Result<KeyTuple>
  {
    if |e.members| > 0 then KeyValues(e.members[0].md, sk, ik) else Throw(MetadataGetError)
  }

  /** Ensembles each gathered on one tuple of key values, neighbours on different ones. */
  ghost predicate Gathered(gs: seq<Ensemble3C>, sk: seq<string>, ik: seq<string>)
  {
    (forall g :: 0 <= g < |gs| ==> GroupHolds(gs[g], sk, ik)) &&
    (forall g :: 1 <= g < |gs| ==> GroupValues(gs[g - 1], sk, ik) != GroupValues(gs[g], sk, ik))
  }
  /** The state of the loop as written after n seismograms. */
  ghost predicate AsWrittenHolds(ds: seq<Seis3C>, n: nat, out: seq<Ensemble3C>, dout: Ensemble3C,
                                 tests: KeyTuple, sk: seq<string>, ik: seq<string>)
    requires n <= |ds|
  {
    AllKeyed(ds[..n], sk, ik) &&
    (n == 0 ==> out == [] && dout == Ensemble3C(map[], [])) &&
    (n > 0 ==>
      KeyValues(ds[0].md, sk, ik).Ok? && |tests.0| == |sk| && |tests.1| == |ik| &&
      dout.md == GroupMetadata(sk, ik, KeyValues(ds[0].md, sk, ik).value) &&
      (forall g :: 0 <= g < |out| ==> out[g].md == dout.md) &&
      |Flatten(out)| + |dout.members| + |out| + 1 == n)
  }

  lemma AsWrittenFirst(ds: seq<Seis3C>, sk: seq<string>, ik: seq<string>)
    requires |ds| > 0 && KeyValues(ds[0].md, sk, ik).Ok?
    ensures AsWrittenHolds(ds, 1, [], Ensemble3C(GroupMetadata(sk, ik, KeyValues(ds[0].md, sk, ik).value), []),
                           KeyValues(ds[0].md, sk, ik).value, sk, ik)
  {
    AllKeyedStep(ds, 0, sk, ik);
  }

  lemma AsWrittenMatch(ds: seq<Seis3C>, n: nat, out: seq<Ensemble3C>, dout: Ensemble3C,
                       tests: KeyTuple, sk: seq<string>, ik: seq<string>)
    requires 0 < n < |ds| && AsWrittenHolds(ds, n, out, dout, tests, sk, ik)
    requires KeyValues(ds[n].md, sk, ik).Ok?
    ensures AsWrittenHolds(ds, n + 1, out, Ensemble3C(dout.md, dout.members + [ds[n]]), tests, sk, ik)
  {
    AllKeyedStep(ds, n, sk, ik);
  }

  lemma AsWrittenReset(ds: seq<Seis3C>, n: nat, out: seq<Ensemble3C>, dout: Ensemble3C,
                       tests: KeyTuple, sk: seq<string>, ik: seq<string>)
    requires 0 < n < |ds| && AsWrittenHolds(ds, n, out, dout, tests, sk, ik)
    requires KeyValues(ds[n].md, sk, ik).Ok?
    ensures AsWrittenHolds(ds, n + 1, out + [dout], Ensemble3C(dout.md, []), KeyValues(ds[n].md, sk, ik).value, sk, ik)
  {
    AllKeyedStep(ds, n, sk, ik);
    FlattenSnoc(out, dout);
  }

  lemma AsWrittenDone(ds: seq<Seis3C>, out: seq<Ensemble3C>, dout: Ensemble3C, tests: KeyTuple,
                      sk: seq<string>, ik: seq<string>)
    requires |ds| > 0 && AsWrittenHolds(ds, |ds|, out, dout, tests, sk, ik)
    ensures AllKeyed(ds, sk, ik) && |Flatten(out + [dout])| + |out + [dout]| == |ds|
    ensures forall g :: 0 <= g < |out + [dout]| ==>
      (out + [dout])[g].md == GroupMetadata(sk, ik, KeyValues(ds[0].md, sk, ik).value)
  {
    assert ds[..|ds|] == ds;
    FlattenSnoc(out, dout);
  }

  /** One pass of the loop body as written over seismogram n. */
  method AsWrittenStep(ds: seq<Seis3C>, n: nat, out: seq<Ensemble3C>, dout: Ensemble3C, tests: KeyTuple,
                       sk: seq<string>, ik: seq<string>)
    returns (failed: bool, out': seq<Ensemble3C>, dout': Ensemble3C, tests': KeyTuple)
    requires 0 < n < |ds| && AsWrittenHolds(ds, n, out, dout, tests, sk, ik)
    ensures !failed ==> AsWrittenHolds(ds, n + 1, out', dout', tests', sk, ik)
    ensures failed ==> !AllKeyed(ds, sk, ik)
    ensures failed ==> forall g :: 0 <= g < |out'| ==> out'[g].md == GroupMetadata(sk, ik, KeyValues(ds[0].md, sk, ik).value)
  {
    var d := ds[n];
    var m := KeysMatch(d.md, sk, ik, tests.0, tests.1);
    if m.Err? {
      NotAllKeyed(ds, n, sk, ik);
      return true, out, dout, tests;
    }
    if m.value {
      AsWrittenMatch(ds, n, out, dout, tests, sk, ik);
      return false, out, Ensemble3C(dout.md, dout.members + [d]), tests;
    }
    var reset := ResetEnsemble(d, sk, ik, dout);
    if reset.Err? {
      NotAllKeyed(ds, n, sk, ik);
      return true, out + [dout], dout, tests;
    }
    AsWrittenReset(ds, n, out, dout, tests, sk, ik);
    return false, out + [dout], reset.value.0, reset.value.1;
  }

  /**
   * The grouping loop of main as it is written: the first seismogram only
   * sets the test values and the ensemble metadata, a seismogram that does
   * not match only closes the ensemble and resets it, and neither is added
   * as a member.  The ensemble metadata is never posted again.
   */
  method GatherAsWritten(ds: seq<Seis3C>, sk: seq<string>, ik: seq<string>)
    returns (out: seq<Ensemble3C>, status: int)
    ensures status == 0 <==> AllKeyed(ds, sk, ik)
    ensures status == 0 || status == -1
    ensures status == 0 && |ds| > 0 ==> |Flatten(out)| + |out| == |ds|
    ensures |ds| > 0 && KeyValues(ds[0].md, sk, ik).Ok? ==>
      forall g :: 0 <= g < |out| ==> out[g].md == GroupMetadata(sk, ik, KeyValues(ds[0].md, sk, ik).value)
    ensures |ds| == 0 ==> out == [Ensemble3C(map[], [])]
  {
    var dout := Ensemble3C(map[], []);
    if |ds| == 0 {
      return [dout], 0;
    }
    var v := TestValues(ds[0].md, sk, ik);
    if v.Err? {
      NotAllKeyed(ds, 0, sk, ik);
      return [], -1;
    }
    AsWrittenFirst(ds, sk, ik);
    var tests := v.value;
    dout := Ensemble3C(GroupMetadata(sk, ik, tests), dout.members);
    out := [];
    var nseis := 1;
    while nseis < |ds|
      invariant 1 <= nseis <= |ds|
      invariant AsWrittenHolds(ds, nseis, out, dout, tests, sk, ik)
    {
      var failed;
      failed, out, dout, tests := AsWrittenStep(ds, nseis, out, dout, tests, sk, ik);
      if failed {
        return out, -1;
      }
      nseis := nseis + 1;
    }
    AsWrittenDone(ds, out, dout, tests, sk, ik);
    out := out + [dout];
    status := 0;
  }

  /** The state of the corrected loop after n seismograms. */
  ghost predicate GatherHolds(ds: seq<Seis3C>, n: nat, out: seq<Ensemble3C>, dout: Ensemble3C,
                              tests: KeyTuple, sk: seq<string>, ik: seq<string>)
    requires n <= |ds|
  {
    AllKeyed(ds[..n], sk, ik) &&
    (n == 0 ==> out == [] && dout == Ensemble3C(map[], [])) &&
    (n > 0 ==>
      Flatten(out) + dout.members == ds[..n] && Gathered(out + [dout], sk, ik) &&
      GroupValues(dout, sk, ik) == Ok(tests))
  }

  lemma GatherFirst(ds: seq<Seis3C>, sk: seq<string>, ik: seq<string>)
    requires |ds| > 0 && KeyValues(ds[0].md, sk, ik).Ok?
    ensures GatherHolds(ds, 1, [], Ensemble3C(GroupMetadata(sk, ik, KeyValues(ds[0].md, sk, ik).value), [ds[0]]),
                        KeyValues(ds[0].md, sk, ik).value, sk, ik)
  {
    AllKeyedStep(ds, 0, sk, ik);
    var e := Ensemble3C(GroupMetadata(sk, ik, KeyValues(ds[0].md, sk, ik).value), [ds[0]]);
    assert Flatten([]) + e.members == ds[..1];
    assert GroupHolds(e, sk, ik);
    assert [] + [e] == [e];
  }

  lemma GatherMatch(ds: seq<Seis3C>, n: nat, out: seq<Ensemble3C>, dout: Ensemble3C,
                    tests: KeyTuple, sk: seq<string>, ik: seq<string>)
    requires 0 < n < |ds| && GatherHolds(ds, n, out, dout, tests, sk, ik)
    requires KeyValues(ds[n].md, sk, ik) == Ok(tests)
    ensures GatherHolds(ds, n + 1, out, Ensemble3C(dout.md, dout.members + [ds[n]]), tests, sk, ik)
  {
    AllKeyedStep(ds, n, sk, ik);
    GatherMatchStep(out, dout, ds[n], sk, ik);
    assert ds[..n + 1] == ds[..n] + [ds[n]];
  }

  lemma GatherReset(ds: seq<Seis3C>, n: nat, out: seq<Ensemble3C>, dout: Ensemble3C,
                    tests: KeyTuple, sk: seq<string>, ik: seq<string>)
    requires 0 < n < |ds| && GatherHolds(ds, n, out, dout, tests, sk, ik)
    requires KeyValues(ds[n].md, sk, ik).Ok? && KeyValues(ds[n].md, sk, ik) != Ok(tests)
    ensures var v := KeyValues(ds[n].md, sk, ik).value;
      GatherHolds(ds, n + 1, out + [dout], Ensemble3C(GroupMetadata(sk, ik, v), [ds[n]]), v, sk, ik)
  {
    var v := KeyValues(ds[n].md, sk, ik).value;
    var e := Ensemble3C(GroupMetadata(sk, ik, v), [ds[n]]);
    AllKeyedStep(ds, n, sk, ik);
    FlattenSnoc(out, dout);
    GatherNewGroup(out, dout, ds[n], sk, ik);
    assert ds[..n + 1] == ds[..n] + [ds[n]];
    assert GroupValues(e, sk, ik) == Ok(v);
  }

  /**
   * One pass of the corrected loop body over seismogram n.  On a missing
   * key it reports failure with the ensembles written so far.
   */
  method GatherStep(ds: seq<Seis3C>, n: nat, out: seq<Ensemble3C>, dout: Ensemble3C, tests: KeyTuple,
                    sk: seq<string>, ik: seq<string>)
    returns (failed: bool, out': seq<Ensemble3C>, dout': Ensemble3C, tests': KeyTuple)
    requires 0 < n < |ds| && GatherHolds(ds, n, out, dout, tests, sk, ik)
    ensures !failed ==> GatherHolds(ds, n + 1, out', dout', tests', sk, ik)
    ensures failed ==> !AllKeyed(ds, sk, ik)
    ensures failed ==> |Flatten(out')| <= |ds| && Flatten(out') == ds[..|Flatten(out')|]
  {
    var d := ds[n];
    assert |tests.0| == |sk| && |tests.1| == |ik|;
    var m := KeysMatch(d.md, sk, ik, tests.0, tests.1);
    if m.Err? {
      NotAllKeyed(ds, n, sk, ik);
      FlattenPrefix(ds, out, dout, n);
      return true, out, dout, tests;
    }
    if m.value {
      GatherMatch(ds, n, out, dout, tests, sk, ik);
      return false, out, Ensemble3C(dout.md, dout.members + [d]), tests;
    }
    var reset := ResetEnsemble(d, sk, ik, dout);
    if reset.Err? {
      NotAllKeyed(ds, n, sk, ik);
      FlattenSnoc(out, dout);
      FlattenPrefix(ds, out + [dout], Ensemble3C(dout.md, []), n);
      return true, out + [dout], dout, tests;
    }
    GatherReset(ds, n, out, dout, tests, sk, ik);
    tests' := reset.value.1;
    return false, out + [dout], Ensemble3C(GroupMetadata(sk, ik, tests'), [d]), tests';
  }

  /**
   * The grouping loop as its usage text describes it: every seismogram
   * goes into the ensemble of its key values, and each new ensemble posts
   * its own key values to its metadata.
   */
  method Gather(ds: seq<Seis3C>, sk: seq<string>, ik: seq<string>)
    returns (out: seq<Ensemble3C>, status: int)
    ensures status == 0 <==> AllKeyed(ds, sk, ik)
    ensures status == 0 || status == -1
    ensures status == 0 ==> Flatten(out) == ds
    ensures status == 0 && |ds| > 0 ==> Gathered(out, sk, ik)
    ensures |ds| == 0 ==> out == [Ensemble3C(map[], [])]
    ensures |Flatten(out)| <= |ds| && Flatten(out) == ds[..|Flatten(out)|]
  {
    var dout := Ensemble3C(map[], []);
    if |ds| == 0 {
      return [dout], 0;
    }
    var v := TestValues(ds[0].md, sk, ik);
    if v.Err? {
      NotAllKeyed(ds, 0, sk, ik);
      return [], -1;
    }
    GatherFirst(ds, sk, ik);
    var tests := v.value;
    dout := Ensemble3C(GroupMetadata(sk, ik, tests), [ds[0]]);
    out := [];
    var nseis := 1;
    while nseis < |ds|
      invariant 1 <= nseis <= |ds|
      invariant GatherHolds(ds, nseis, out, dout, tests, sk, ik)
    {
      var failed;
      failed, out, dout, tests := GatherStep(ds, nseis, out, dout, tests, sk, ik);
      if failed {
        return out, -1;
      }
      nseis := nseis + 1;
    }
    GatherDone(ds, out, dout, tests, sk, ik);
    out := out + [dout];
    status := 0;
  }

  /** At end of input the open ensemble is written and the whole input is gathered. */
  lemma GatherDone(ds: seq<Seis3C>, out: seq<Ensemble3C>, dout: Ensemble3C, tests: KeyTuple,
                   sk: seq<string>, ik: seq<string>)
    requires |ds| > 0 && GatherHolds(ds, |ds|, out, dout, tests, sk, ik)
    ensures AllKeyed(ds, sk, ik) && Flatten(out + [dout]) == ds && Gathered(out + [dout], sk, ik)
  {
    assert ds[..|ds|] == ds;
    FlattenSnoc(out, dout);
  }

  /** What was written before a failure is a prefix of the input. */
  lemma FlattenPrefix(ds: seq<Seis3C>, out: seq<Ensemble3C>, dout: Ensemble3C, n: nat)
    requires n <= |ds| && Flatten(out) + dout.members == ds[..n]
    ensures |Flatten(out)| <= |ds| && Flatten(out) == ds[..|Flatten(out)|]
  {
    assert Flatten(out) == ds[..n][..|Flatten(out)|];
  }

  /** A matching seismogram extends the open ensemble. */
  lemma GatherMatchStep(out: seq<Ensemble3C>, dout: Ensemble3C, d: Seis3C, sk: seq<string>, ik: seq<string>)
    requires Gathered(out + [dout], sk, ik)
    requires KeyValues(d.md, sk, ik) == GroupValues(dout, sk, ik)
    ensures Gathered(out + [Ensemble3C(dout.md, dout.members + [d])], sk, ik)
    ensures Flatten(out) + dout.members + [d] == Flatten(out) + Ensemble3C(dout.md, dout.members + [d]).members
  {
    var e := Ensemble3C(dout.md, dout.members + [d]);
    assert (out + [dout])[|out|] == dout;
    assert GroupHolds(dout, sk, ik);
    assert e.members[0] == dout.members[0];
    assert GroupHolds(e, sk, ik);
    var gs := out + [e];
    forall g | 0 <= g < |gs|
      ensures GroupHolds(gs[g], sk, ik)
    {
      if g < |out| {
        assert gs[g] == (out + [dout])[g];
      }
    }
    forall g | 1 <= g < |gs|
      ensures GroupValues(gs[g - 1], sk, ik) != GroupValues(gs[g], sk, ik)
    {
      assert (out + [dout])[g - 1] == gs[g - 1];
      assert GroupValues((out + [dout])[g], sk, ik) == GroupValues(gs[g], sk, ik);
    }
  }

  /** A seismogram that does not match opens an ensemble of its own. */
  lemma GatherNewGroup(out: seq<Ensemble3C>, dout: Ensemble3C, d: Seis3C, sk: seq<string>, ik: seq<string>)
    requires Gathered(out + [dout], sk, ik)
    requires KeyValues(d.md, sk, ik).Ok? && KeyValues(d.md, sk, ik) != GroupValues(dout, sk, ik)
    ensures Gathered(out + [dout] + [Ensemble3C(GroupMetadata(sk, ik, KeyValues(d.md, sk, ik).value), [d])], sk, ik)
  {
    var e := Ensemble3C(GroupMetadata(sk, ik, KeyValues(d.md, sk, ik).value), [d]);
    var gs := out + [dout] + [e];
    assert GroupHolds(e, sk, ik);
    forall g | 0 <= g < |gs|
      ensures GroupHolds(gs[g], sk, ik)
    {
      if g < |out| + 1 {
        assert gs[g] == (out + [dout])[g];
      }
    }
    forall g | 1 <= g < |gs|
      ensures GroupValues(gs[g - 1], sk, ik) != GroupValues(gs[g], sk, ik)
    {
      if g < |out| + 1 {
        assert gs[g - 1] == (out + [dout])[g - 1] && gs[g] == (out + [dout])[g];
      }
    }
  }
}
