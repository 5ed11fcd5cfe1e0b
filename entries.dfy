/**
 * Parameter files written as `<name> <value>` pairs. When no value token is
 * itself a field name and no field is given two different values, the
 * loaded parameters depend only on which pairs the file holds: not on
 * their order, and not on pairs whose name is not a field name.
 */
module Entries {
  import opened Options
  import opened Fields
  import opened Dispatch

  datatype Entry = Entry(name: string, value: string)

  /** The token sequence of a list of pairs. */
  function Flatten(es: seq<Entry>): (r: seq<string>)
    ensures |r| == 2 * |es|
    ensures forall k :: 0 <= k < |es| ==> r[2 * k] == es[k].name && r[2 * k + 1] == es[k].value
  {
    if es == [] then [] else [es[0].name, es[0].value] + Flatten(es[1..])
  }

  /**
   * Tokens are non-empty (as the file reader produces them), no value token
   * names a field, and a field name is never paired with two different values.
   */
  predicate WellFormed(es: seq<Entry>) {
    && (forall e :: e in es ==> e.name != "" && e.value != "" && Lookup(e.value) == None)
    && (forall e1, e2 :: e1 in es && e2 in es && e1.name == e2.name && Lookup(e1.name).Some? ==> e1 == e2)
  }

  /** The parameters after loading the tokens of `es`, which the empty slot after them terminates. */
  function Load(c: Config, es: seq<Entry>): Config {
    StoreUpTo(c, Flatten(es) + [""], 2 * |es|)
  }

  /** In a well-formed file only the name slot of a pair naming the field can write it. */
  lemma OnlyNameSlotsWrite(es: seq<Entry>, f: Field, j: nat) returns (k: nat)
    requires WellFormed(es)
    requires j < 2 * |es|
    requires Writes(f, Flatten(es) + [""], j)
    ensures j == 2 * k && k < |es| && es[k].name == Name(f)
    ensures (Flatten(es) + [""])[j + 1] == es[k].value
  {
    var s := Flatten(es) + [""];
    k := j / 2;
    if j == 2 * k + 1 {
      ValueSlotWritesNothing(es, f, k);
    }
    assert j == 2 * k;
    assert s[j] == es[k].name && s[j + 1] == es[k].value;
  }

  /** The value slot of a pair never names a field. */
  lemma ValueSlotWritesNothing(es: seq<Entry>, f: Field, k: nat)
    requires WellFormed(es)
    requires k < |es|
    ensures !Writes(f, Flatten(es) + [""], 2 * k + 1)
  {
    var s := Flatten(es) + [""];
    assert es[k] in es;
    assert s[2 * k + 1] == es[k].value;
  }

  /** A field named by a pair holds that pair's value, stored as its kind requires. */
  lemma LoadEntry(c: Config, es: seq<Entry>, f: Field, k: nat)
    requires WellFormed(es)
    requires k < |es| && es[k].name == Name(f)
    ensures Get(Load(c, es), f) == Decode(f, es[k].value, Get(c, f))
  {
    var s := Flatten(es) + [""];
    var v := es[k].value;
    assert es[k] in es;
    assert s[2 * k] == es[k].name && s[2 * k + 1] == v;
    assert Lookup(Name(f)) == Some(f);
    forall i | 0 <= i < 2 * |es| && Writes(f, s, i)
      ensures s[i + 1] == v
    {
      var k' := OnlyNameSlotsWrite(es, f, i);
      assert es[k'] in es;
    }
    if Writes(f, s, 2 * k) {
      StoreConsistentWrites(c, s, 2 * |es|, f, 2 * k, v);
    } else {
      StoreKeepsUnwritten(c, s, 2 * |es|, f);
    }
  }

  /** A field that no pair names keeps its incoming value. */
  lemma LoadAbsent(c: Config, es: seq<Entry>, f: Field)
    requires WellFormed(es)
    requires forall k :: 0 <= k < |es| ==> es[k].name != Name(f)
    ensures Get(Load(c, es), f) == Get(c, f)
  {
    var s := Flatten(es) + [""];
    forall i | 0 <= i < 2 * |es|
      ensures !Writes(f, s, i)
    {
      if Writes(f, s, i) {
        var k := OnlyNameSlotsWrite(es, f, i);
        assert false;
      }
    }
    StoreKeepsUnwritten(c, s, 2 * |es|, f);
  }

  /** Two well-formed files holding the same pairs with field names load the same parameters. */
  lemma SameEntriesSameLoad(c: Config, es1: seq<Entry>, es2: seq<Entry>)
    requires WellFormed(es1) && WellFormed(es2)
    requires forall e: Entry :: Lookup(e.name).Some? ==> (e in es1 <==> e in es2)
    ensures Load(c, es1) == Load(c, es2)
  {
    forall f ensures Get(Load(c, es1), f) == Get(Load(c, es2), f) {
      assert Lookup(Name(f)) == Some(f);
      if k1 :| 0 <= k1 < |es1| && es1[k1].name == Name(f) {
        assert es1[k1] in es2;
        var k2 :| 0 <= k2 < |es2| && es2[k2] == es1[k1];
        LoadEntry(c, es1, f, k1);
        LoadEntry(c, es2, f, k2);
      } else if k2 :| 0 <= k2 < |es2| && es2[k2].name == Name(f) {
        assert false;
      } else {
        LoadAbsent(c, es1, f);
        LoadAbsent(c, es2, f);
      }
    }
    ConfigExt(Load(c, es1), Load(c, es2));
  }

  /** Reordering the pairs of a well-formed file does not change what it loads. */
  lemma PermutedEntriesSameLoad(c: Config, es1: seq<Entry>, es2: seq<Entry>)
    requires WellFormed(es1)
    requires multiset(es1) == multiset(es2)
    ensures WellFormed(es2)
    ensures Load(c, es1) == Load(c, es2)
  {
    forall e: Entry ensures e in es1 <==> e in es2 {
      assert e in es1 <==> e in multiset(es1);
      assert e in es2 <==> e in multiset(es2);
    }
    SameEntriesSameLoad(c, es1, es2);
  }

  /** Adding a pair whose name and value are not field names does not change what a file loads. */
  lemma UnknownEntryIgnored(c: Config, es: seq<Entry>, i: nat, e: Entry)
    requires WellFormed(es)
    requires i <= |es|
    requires e.name != "" && e.value != ""
    requires Lookup(e.name) == None && Lookup(e.value) == None
    ensures WellFormed(es[..i] + [e] + es[i..])
    ensures Load(c, es[..i] + [e] + es[i..]) == Load(c, es)
  {
    var t := es[..i] + [e] + es[i..];
    assert es == es[..i] + es[i..];
    forall x: Entry ensures x in t <==> x in es || x == e {
      assert x in t <==> x in es[..i] || x == e || x in es[i..];
    }
    SameEntriesSameLoad(c, t, es);
  }
}
