/**
 * `StackStormActionAliasesSkill` of src/droidstorm/skill.py: the `st2`
 * property finds, on first use, the single connector of the opsdroid instance
 * named "droidstorm" and caches it in `_st2`.
 */
module Skill {

  import opened Wrappers
  import opened Connector

  /** The connector name the `st2` property looks for. */
  const St2ConnectorName := "droidstorm"

  /** The `ValueError` of the single-element unpacking `[x] = values`. */
  datatype UnpackError = NotEnoughValues | TooManyValues(got: nat)

  /** The opsdroid instance, as far as the skill sees it: its list of connectors. */
  class OpsDroid {
    var connectors: seq<StackStormConnector>

    constructor (connectors: seq<StackStormConnector>)
      ensures this.connectors == connectors
    {
      this.connectors := connectors;
    }
  }

  /** The list comprehension of `st2`: the connectors named `name`, in list order. */
  function Named(cs: seq<StackStormConnector>, name: string): (r: seq<StackStormConnector>)
    ensures |r| <= |cs|
    ensures forall c :: c in r ==> c in cs && c.name == name
    ensures forall c :: c in cs && c.name == name ==> c in r
  {
    if cs == [] then []
    else (if cs[0].name == name then [cs[0]] else []) + Named(cs[1..], name)
  }

  /** `[x] = values`. */
  function Unpack<T>(values: seq<T>): (r: Result<T, UnpackError>)
    ensures r.Success? <==> |values| == 1
    ensures r.Success? ==> r.value == values[0]
    ensures |values| == 0 ==> r == Failure(NotEnoughValues)
    ensures |values| > 1 ==> r == Failure(TooManyValues(|values|))
  {
    if |values| == 0 then Failure(NotEnoughValues)
    else if |values| > 1 then Failure(TooManyValues(|values|))
    else Success(values[0])
  }

  /** One match in the comprehension means one position of the list holds a
      connector with that name, and that connector is the match. */
  lemma {:induction false} SingleMatchHasOnePosition(cs: seq<StackStormConnector>, name: string)
    requires |Named(cs, name)| == 1
    ensures exists i ::
      && 0 <= i < |cs| && cs[i] == Named(cs, name)[0]
      && forall j :: 0 <= j < |cs| && j != i ==> cs[j].name != name
  {
    if cs[0].name == name {
      forall j | 0 <= j < |cs[1..]|
        ensures cs[1..][j].name != name
      {
        assert cs[1..][j] == cs[j + 1];
      }
      NoneNamed(cs[1..], name);
      assert Named(cs[1..], name) == [];
      forall j | 0 < j < |cs|
        ensures cs[j].name != name
      {
        assert cs[j] in cs[1..];
      }
    } else {
      assert Named(cs, name) == Named(cs[1..], name);
      SingleMatchHasOnePosition(cs[1..], name);
      var i :| 0 <= i < |cs[1..]| && cs[1..][i] == Named(cs[1..], name)[0] &&
        (forall j :: 0 <= j < |cs[1..]| && j != i ==> cs[1..][j].name != name);
      assert cs[i + 1] == Named(cs, name)[0];
      forall j | 0 <= j < |cs| && j != i + 1
        ensures cs[j].name != name
      {
        if j > 0 {
          assert cs[1..][j - 1] == cs[j];
        }
      }
    }
  }

  /** A name no connector of the list carries yields no match. */
  lemma {:induction false} NoneNamed(cs: seq<StackStormConnector>, name: string)
    requires forall j :: 0 <= j < |cs| ==> cs[j].name != name
    ensures Named(cs, name) == []
  {
    if cs != [] {
      NoneNamed(cs[1..], name);
    }
  }

  /** Conversely, a name held at exactly one position yields exactly that
      connector. */
  lemma {:induction false} OnePositionIsSingleMatch(cs: seq<StackStormConnector>, name: string, i: nat)
    requires i < |cs| && cs[i].name == name
    requires forall j :: 0 <= j < |cs| && j != i ==> cs[j].name != name
    ensures Named(cs, name) == [cs[i]]
  {
    if i == 0 {
      forall j | 0 <= j < |cs[1..]|
        ensures cs[1..][j].name != name
      {
        assert cs[1..][j] == cs[j + 1];
      }
      NoneNamed(cs[1..], name);
    } else {
      forall j | 0 <= j < |cs[1..]| && j != i - 1
        ensures cs[1..][j].name != name
      {
        assert cs[1..][j] == cs[j + 1];
      }
      OnePositionIsSingleMatch(cs[1..], name, i - 1);
      assert cs[0].name != name;
      assert cs[1..][i - 1] == cs[i];
    }
  }

  /** Connectors built with no "name" option are named "st2", so a list of
      them never yields a "droidstorm" connector and `st2` fails on it. */
  lemma DefaultNamedConnectorsNeverFound(cs: seq<StackStormConnector>)
    requires forall c :: c in cs ==> c.Valid() && "name" !in c.config
    ensures Named(cs, St2ConnectorName) == []
    ensures Unpack(Named(cs, St2ConnectorName)) == Failure(NotEnoughValues)
  {
  }

  class StackStormActionAliasesSkill {
    const opsdroid: OpsDroid
    /** `_st2`: the cached connector. */
    var cachedSt2: Option<StackStormConnector>

    /** Only a connector named "droidstorm" is ever cached. */
    ghost predicate Valid()
      reads this
    {
      cachedSt2.Some? ==> cachedSt2.value.name == St2ConnectorName
    }

    /** `__init__`: the cache starts empty, since opsdroid's connectors are not
        known yet. */
    constructor (opsdroid: OpsDroid)
      ensures this.opsdroid == opsdroid && cachedSt2 == None && Valid()
    {
      this.opsdroid := opsdroid;
      cachedSt2 := None;
    }

    /** The `st2` property.  A filled cache is returned without looking at the
        connectors.  Otherwise the connectors named "droidstorm" are unpacked
        into the cache: with exactly one, it is cached and returned; with none
        or several, the unpacking raises and the cache stays empty. */
    method St2() returns (r: Result<StackStormConnector, UnpackError>)
      requires Valid()
      modifies this
      ensures Valid()
      ensures old(cachedSt2).Some? ==> r == Success(old(cachedSt2).value) && cachedSt2 == old(cachedSt2)
      ensures old(cachedSt2).None? ==>
        r == Unpack(Named(opsdroid.connectors, St2ConnectorName)) && cachedSt2 == r.ToOption()
      ensures r.Success? ==> r.value.name == St2ConnectorName
    {
      if cachedSt2.None? {
        var found := Unpack(Named(opsdroid.connectors, St2ConnectorName));
        if found.Failure? {
          return found;
        }
        cachedSt2 := Some(found.value);
      }
      r := Success(cachedSt2.value);
    }
  }
}
