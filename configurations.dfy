/**
 * Configuration views. A built configuration is the ordered list of key/value
 * entries its sources contributed; a lookup returns the value of the LAST entry
 * whose key matches, keys compared ordinal ignore-case. This is the behaviour
 * the pipeline relies on from the external configuration library.
 */
module Configurations {
  import opened Wrappers
  import opened OrdinalIgnoreCase

  datatype Entry = Entry(key: string, value: string)

  /** An immutable configuration snapshot. */
  datatype Configuration = Configuration(entries: seq<Entry>)

  /** The indexer `configuration[key]`: the last matching entry wins; no match is null. */
  function Lookup(entries: seq<Entry>, key: string): Option<string>
    decreases |entries|
  {
    if entries == [] then None
    else if EqualsIgnoreCase(entries[|entries| - 1].key, key) then Some(entries[|entries| - 1].value)
    else Lookup(entries[..|entries| - 1], key)
  }

  function Get(configuration: Configuration, key: string): Option<string>
  {
    Lookup(configuration.entries, key)
  }

  /** Entry `i` is the last one whose key matches `key`. */
  ghost predicate LastMatch(entries: seq<Entry>, key: string, i: int)
  {
    0 <= i < |entries| && EqualsIgnoreCase(entries[i].key, key) &&
    forall j :: i < j < |entries| ==> !EqualsIgnoreCase(entries[j].key, key)
  }

  /** A lookup finds the value of the last matching entry, and is null exactly when no entry matches. */
  lemma {:induction false} LookupFindsLastMatch(entries: seq<Entry>, key: string)
    ensures Lookup(entries, key).None? <==> forall j :: 0 <= j < |entries| ==> !EqualsIgnoreCase(entries[j].key, key)
    ensures Lookup(entries, key).Some? ==>
              exists i :: LastMatch(entries, key, i) && entries[i].value == Lookup(entries, key).value
  {
    if entries != [] {
      var n := |entries| - 1;
      var prefix := entries[..n];
      LookupFindsLastMatch(prefix, key);
      if EqualsIgnoreCase(entries[n].key, key) {
        assert LastMatch(entries, key, n);
      } else if Lookup(prefix, key).Some? {
        var i :| LastMatch(prefix, key, i) && prefix[i].value == Lookup(prefix, key).value;
        assert LastMatch(entries, key, i);
      } else {
        forall j | 0 <= j < |entries| ensures !EqualsIgnoreCase(entries[j].key, key) {
          if j < n { assert prefix[j] == entries[j]; }
        }
      }
    }
  }

  /** Layering: entries added on top win; where they say nothing, the base shows through. */
  lemma {:induction false} LookupLayered(base: seq<Entry>, top: seq<Entry>, key: string)
    ensures Lookup(base + top, key) == if Lookup(top, key).Some? then Lookup(top, key) else Lookup(base, key)
  {
    if top == [] {
      assert base + top == base;
    } else {
      var n := |top| - 1;
      assert (base + top)[..|base + top| - 1] == base + top[..n];
      assert (base + top)[|base + top| - 1] == top[n];
      LookupLayered(base, top[..n], key);
    }
  }

  /** Keys that differ only in letter case look up the same value. */
  lemma {:induction false} LookupIgnoresCase(entries: seq<Entry>, k1: string, k2: string)
    requires EqualsIgnoreCase(k1, k2)
    ensures Lookup(entries, k1) == Lookup(entries, k2)
  {
    if entries != [] {
      var k := entries[|entries| - 1].key;
      EqualsIgnoreCaseIsEquivalence(k, k1, k2);
      EqualsIgnoreCaseIsEquivalence(k, k2, k1);
      EqualsIgnoreCaseIsEquivalence(k1, k2, k2);
      LookupIgnoresCase(entries[..|entries| - 1], k1, k2);
    }
  }
}

/** The bootstrap configuration keys the builder reads. */
module ConsoleDriverDefaults {
  const ApplicationKey: string := "applicationName"
  const EnvironmentKey: string := "environment"
  const ContentRootKey: string := "contentRoot"
}
