/**
 * polyfill.js: `Object.assign_`, the `Object.assign` of section 19.1.2.1 of
 * ECMA-262 (2015 edition) written out in script, installed on `Object` only
 * when no function is there yet.
 *
 * An object is its enumerable own properties, which the merge writes in
 * place, and the enumerable properties it inherits from its prototype,
 * which `for ... in` visits but `hasOwnProperty` rejects. Property values
 * are strings.
 */
module Polyfill {
  import opened Wrappers
  import opened Host

  class JsObject {
    var own: map<string, string>
    const inherited: map<string, string>

    constructor (own: map<string, string>, inherited: map<string, string>)
      ensures this.own == own && this.inherited == inherited
    {
      this.own := own;
      this.inherited := inherited;
    }
  }

  /** An argument of `assign`: null, undefined, or an object. */
  datatype AssignArg = NullArg | UndefinedArg | ObjectArg(obj: JsObject)

  /** The objects among the arguments. */
  function Objects(args: seq<AssignArg>): set<JsObject>
  {
    set j | 0 <= j < |args| && args[j].ObjectArg? :: args[j].obj
  }

  /**
   * What each source contributes: its own properties, or nothing when it is
   * null or undefined (line 20). A source that is the target itself would
   * copy the target's properties onto themselves, which changes nothing, so
   * it contributes nothing either.
   */
  function Contributions(target: JsObject, sources: seq<AssignArg>): (r: seq<Option<map<string, string>>>)
    reads Objects(sources)
    ensures |r| == |sources|
    ensures forall j :: 0 <= j < |sources| ==>
      r[j] == (if sources[j].ObjectArg? && sources[j].obj != target then Some(sources[j].obj.own) else None)
  {
    seq(|sources|, j reads Objects(sources) requires 0 <= j < |sources| =>
      if sources[j].ObjectArg? && sources[j].obj != target then Some(sources[j].obj.own) else None)
  }

  /** One source copied onto the properties so far: its own keys overwrite, the rest stay. */
  function CopyOnto(cur: map<string, string>, c: Option<map<string, string>>): map<string, string>
  {
    match c
    case None => cur
    case Some(props) => cur + props
  }

  /** The sources copied in order, each onto the result of the ones before. */
  function MergeAll(cur: map<string, string>, cs: seq<Option<map<string, string>>>): map<string, string>
  {
    if cs == [] then cur else CopyOnto(MergeAll(cur, cs[..|cs| - 1]), cs[|cs| - 1])
  }

  /** `k` is an own key of the `j`-th contribution. */
  predicate Gives(cs: seq<Option<map<string, string>>>, j: int, k: string)
  {
    0 <= j < |cs| && cs[j].Some? && k in cs[j].value
  }

  /** The merged keys are the target's and every source's own keys. */
  lemma {:induction false} MergeKeys(cur: map<string, string>, cs: seq<Option<map<string, string>>>, k: string)
    ensures k in MergeAll(cur, cs) <==> k in cur || exists j :: Gives(cs, j, k)
  {
    if cs != [] {
      var n := |cs|;
      var front := cs[..n - 1];
      MergeKeys(cur, front, k);
      if exists j :: Gives(front, j, k) {
        var j :| Gives(front, j, k);
        assert front[j] == cs[j];
        assert Gives(cs, j, k);
      }
      if cs[n - 1].Some? && k in cs[n - 1].value {
        assert Gives(cs, n - 1, k);
      }
      if exists j :: Gives(cs, j, k) {
        var j :| Gives(cs, j, k);
        if j < n - 1 {
          assert front[j] == cs[j];
          assert Gives(front, j, k);
        }
      }
    }
  }

  /** The last source that has a key decides its value: later sources override earlier ones. */
  lemma {:induction false} LastSourceWins(cur: map<string, string>, cs: seq<Option<map<string, string>>>, j: nat, k: string)
    requires Gives(cs, j, k)
    requires forall i :: j < i < |cs| ==> !Gives(cs, i, k)
    ensures k in MergeAll(cur, cs) && MergeAll(cur, cs)[k] == cs[j].value[k]
  {
    var n := |cs|;
    if j < n - 1 {
      var front := cs[..n - 1];
      assert !Gives(cs, n - 1, k);
      assert front[j] == cs[j];
      forall i | j < i < |front|
        ensures !Gives(front, i, k)
      {
        assert front[i] == cs[i];
        assert !Gives(cs, i, k);
      }
      LastSourceWins(cur, front, j, k);
    }
  }

  /** A key no source owns keeps the target's value, or stays absent. */
  lemma {:induction false} UnownedKeyKept(cur: map<string, string>, cs: seq<Option<map<string, string>>>, k: string)
    requires forall j :: 0 <= j < |cs| ==> !Gives(cs, j, k)
    ensures k in MergeAll(cur, cs) <==> k in cur
    ensures k in cur ==> MergeAll(cur, cs)[k] == cur[k]
  {
    if cs != [] {
      var n := |cs|;
      assert !Gives(cs, n - 1, k);
      var front := cs[..n - 1];
      forall j | 0 <= j < n - 1
        ensures !Gives(front, j, k)
      {
        assert front[j] == cs[j];
        assert !Gives(cs, j, k);
      }
      UnownedKeyKept(cur, front, k);
    }
  }

  /** A key that sources only inherit is not copied: the target's value for it is untouched. */
  lemma InheritedNotCopied(target: JsObject, sources: seq<AssignArg>, k: string)
    requires forall j :: 0 <= j < |sources| && sources[j].ObjectArg? ==> k !in sources[j].obj.own
    ensures var merged := MergeAll(target.own, Contributions(target, sources));
      && (k in merged <==> k in target.own)
      && (k in target.own ==> merged[k] == target.own[k])
  {
    var cs := Contributions(target, sources);
    forall j | 0 <= j < |cs|
      ensures !Gives(cs, j, k)
    {
    }
    UnownedKeyKept(target.own, cs, k);
  }

  /**
   * `Object.assign_(target, ...sources)` (lines 9-30): a null or undefined
   * target raises TypeError; otherwise each non-null source's own
   * enumerable properties are written into the target, in order, and the
   * target itself is returned.
   */
  method Assign(target: AssignArg, sources: seq<AssignArg>) returns (to: JsObject?, status: Status)
    modifies if target.ObjectArg? then {target.obj} else {}
    ensures !target.ObjectArg? ==> to == null && status == Thrown(TypeError)
    ensures target.ObjectArg? ==>
      && to == target.obj && status == Ok
      && to.own == MergeAll(old(target.obj.own), old(Contributions(target.obj, sources)))
  {
    if !target.ObjectArg? {
      return null, Thrown(TypeError);
    }
    to := target.obj;
    status := Ok;
    ghost var cs := Contributions(to, sources);
    ghost var start := to.own;
    for index := 0 to |sources|
      invariant to.own == MergeAll(start, cs[..index])
      invariant forall j :: 0 <= j < |sources| && sources[j].ObjectArg? && sources[j].obj != to ==>
        sources[j].obj.own == old(sources[j].obj.own)
    {
      var nextSource := sources[index];
      assert cs[..index + 1][..index] == cs[..index];
      if nextSource.ObjectArg? {
        ghost var before := to.own;
        CopyOwn(to, nextSource.obj);
        if nextSource.obj == to {
          assert to.own == before + before;
          MergeSelf(before);
        }
      }
    }
    assert cs[..|sources|] == cs;
  }

  /**
   * Lines 21-26: `for (nextKey in nextSource)` visits the own and the
   * inherited keys; only the own ones are written into `to`.
   */
  method CopyOwn(to: JsObject, nextSource: JsObject)
    modifies to
    ensures to.own == old(to.own) + old(nextSource.own)
  {
    var props := nextSource.own;
    var keys := props.Keys + nextSource.inherited.Keys;
    ghost var visited := keys;
    ghost var start := to.own;
    while keys != {}
      invariant keys <= visited
      invariant to.own == start + Restrict(props, visited - keys)
      decreases |keys|
    {
      var nextKey :| nextKey in keys;
      CopyStep(start, props, visited, keys, nextKey);
      if nextKey in props {
        to.own := to.own[nextKey := props[nextKey]];
      }
      keys := keys - {nextKey};
    }
    RestrictAll(props, visited);
  }

  /** The properties of `props` whose keys are in `keys`. */
  function Restrict(props: map<string, string>, keys: set<string>): map<string, string>
  {
    map k | k in props && k in keys :: props[k]
  }

  /** Visiting one more key writes it exactly when the source owns it. */
  lemma CopyStep(start: map<string, string>, props: map<string, string>, visited: set<string>, keys: set<string>, key: string)
    requires key in keys && keys <= visited
    ensures var before := start + Restrict(props, visited - keys);
      start + Restrict(props, visited - (keys - {key})) == if key in props then before[key := props[key]] else before
  {
    var grown := visited - (keys - {key});
    if key in props {
      assert Restrict(props, grown) == Restrict(props, visited - keys)[key := props[key]];
    } else {
      assert Restrict(props, grown) == Restrict(props, visited - keys);
    }
  }

  /** Once every own key was visited, all of them were copied. */
  lemma RestrictAll(props: map<string, string>, visited: set<string>)
    requires props.Keys <= visited
    ensures Restrict(props, visited - {}) == props
  {
  }

  /** Copying an object's own properties onto itself changes nothing. */
  lemma MergeSelf(m: map<string, string>)
    ensures m + m == m
  {
  }

  /** What `Object.assign_` holds: nothing yet, some other value, or a function. */
  datatype Slot = Missing | NotAFunction | AFunction(isPolyfill: bool)

  /** Line 6: the polyfill is installed only when `typeof Object.assign_ !== 'function'`. */
  function Installed(slot: Slot): (r: Slot)
    ensures r.AFunction?
    ensures slot.AFunction? ==> r == slot
    ensures !slot.AFunction? ==> r == AFunction(true)
  {
    if slot.AFunction? then slot else AFunction(true)
  }
}
