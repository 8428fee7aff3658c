/** The configuration table: a flat list of key/value records, of which the
    services use one, the serial port the switch is attached to. Setting a key
    removes every record with that key and appends a new one, so each key has
    at most one record. */
module ConfigStore {
  import opened Common

  datatype Entry = Entry(key: string, value: string)

  /** The key under which the serial port is stored. */
  const SerialPortKey: string := "cisco_serial_port"

  /** The serial port used when none is configured. */
  const DefaultSerialPort: string := "COM4"

  /** No two records share a key. */
  ghost predicate UniqueKeys(es: seq<Entry>) {
    forall i, j :: 0 <= i < j < |es| ==> es[i].key != es[j].key
  }

  /** `i` is the first record, in table order, with the key. */
  ghost predicate FirstWithKey(es: seq<Entry>, key: string, i: int) {
    0 <= i < |es| && es[i].key == key && forall j :: 0 <= j < i ==> es[j].key != key
  }

  /** The value of the first record with the key (`search(key == k)[0]`). */
  function Lookup(es: seq<Entry>, key: string): (r: Option<string>)
    ensures r.None? <==> forall i :: 0 <= i < |es| ==> es[i].key != key
    ensures r.Some? ==> exists i :: FirstWithKey(es, key, i) && es[i].value == r.value
  {
    if es == [] then None
    else if es[0].key == key then
      assert FirstWithKey(es, key, 0);
      Some(es[0].value)
    else
      var r := Lookup(es[1..], key);
      assert forall i :: FirstWithKey(es[1..], key, i) ==> FirstWithKey(es, key, i + 1);
      r
  }

  /** The table after removing every record with the key. */
  function WithoutKey(es: seq<Entry>, key: string): (r: seq<Entry>)
    ensures |r| <= |es|
    ensures forall e :: e in r <==> e in es && e.key != key
  {
    if es == [] then []
    else if es[0].key == key then WithoutKey(es[1..], key)
    else [es[0]] + WithoutKey(es[1..], key)
  }

  /** The table after `set_config(key, value)`. */
  function Stored(es: seq<Entry>, key: string, value: string): (r: seq<Entry>)
    ensures |r| >= 1 && r[|r| - 1] == Entry(key, value)
    ensures forall e :: e in r <==> (e in es && e.key != key) || e == Entry(key, value)
  {
    WithoutKey(es, key) + [Entry(key, value)]
  }

  /** `{item['key']: item['value'] for item in all}`: a later record overrides an earlier one. */
  function AllConfig(es: seq<Entry>): (m: map<string, string>)
    ensures forall k :: k in m <==> exists i :: 0 <= i < |es| && es[i].key == k
  {
    if es == [] then map[]
    else
      var init := es[..|es| - 1];
      var last := es[|es| - 1];
      var m := AllConfig(init);
      assert forall i :: 0 <= i < |init| ==> init[i] == es[i];
      m[last.key := last.value]
  }

  /** Filtering grows one record at a time, as the removal loop does. */
  lemma {:induction false} WithoutKeyAppend(es: seq<Entry>, e: Entry, key: string)
    ensures WithoutKey(es + [e], key) == WithoutKey(es, key) + (if e.key == key then [] else [e])
  {
    if es == [] {
      assert es + [e] == [e];
    } else {
      assert (es + [e])[1..] == es[1..] + [e];
      WithoutKeyAppend(es[1..], e, key);
    }
  }

  /** A search over two tables in a row finds the first table's record if it has one. */
  lemma {:induction false} LookupAppend(a: seq<Entry>, b: seq<Entry>, key: string)
    ensures Lookup(a + b, key) == if Lookup(a, key).Some? then Lookup(a, key) else Lookup(b, key)
  {
    if a != [] {
      assert (a + b)[1..] == a[1..] + b;
      LookupAppend(a[1..], b, key);
    } else {
      assert a + b == b;
    }
  }

  /** Removing one key leaves the lookups of every other key alone. */
  lemma {:induction false} WithoutKeyLookup(es: seq<Entry>, key: string, other: string)
    requires other != key
    ensures Lookup(WithoutKey(es, key), other) == Lookup(es, other)
  {
    if es != [] {
      WithoutKeyLookup(es[1..], key, other);
      if es[0].key != key {
        assert ([es[0]] + WithoutKey(es[1..], key))[1..] == WithoutKey(es[1..], key);
      }
    }
  }

  /** Round trip: after `set_config(key, value)`, `get_config(key)` finds `value`. */
  lemma SetThenGet(es: seq<Entry>, key: string, value: string)
    ensures Lookup(Stored(es, key, value), key) == Some(value)
  {
    LookupAppend(WithoutKey(es, key), [Entry(key, value)], key);
  }

  /** `set_config(key, value)` changes the lookup of no other key. */
  lemma SetKeepsOthers(es: seq<Entry>, key: string, value: string, other: string)
    requires other != key
    ensures Lookup(Stored(es, key, value), other) == Lookup(es, other)
  {
    LookupAppend(WithoutKey(es, key), [Entry(key, value)], other);
    WithoutKeyLookup(es, key, other);
    assert Lookup([Entry(key, value)][1..], other) == None;
  }

  /** After `set_config(key, value)` exactly one record has the key, and the
      table keeps at most one record per key. */
  lemma SetLeavesOneRecord(es: seq<Entry>, key: string, value: string)
    requires UniqueKeys(es)
    ensures UniqueKeys(Stored(es, key, value))
    ensures forall i :: 0 <= i < |Stored(es, key, value)| ==>
      (Stored(es, key, value)[i].key == key <==> i == |Stored(es, key, value)| - 1)
  {
    WithoutKeyUnique(es, key);
    var s := Stored(es, key, value);
    forall i | 0 <= i < |s| - 1 ensures s[i].key != key {
      assert s[i] in WithoutKey(es, key);
    }
  }

  lemma {:induction false} WithoutKeyUnique(es: seq<Entry>, key: string)
    requires UniqueKeys(es)
    ensures UniqueKeys(WithoutKey(es, key))
  {
    if es != [] {
      WithoutKeyUnique(es[1..], key);
      if es[0].key != key {
        var r := [es[0]] + WithoutKey(es[1..], key);
        forall j | 1 <= j < |r| ensures r[j].key != es[0].key {
          assert r[j] in es[1..];
        }
      }
    }
  }

  /** With one record per key, the dictionary view agrees with `get_config`. */
  lemma {:induction false} AllConfigAgrees(es: seq<Entry>, key: string)
    requires UniqueKeys(es)
    ensures key in AllConfig(es) <==> Lookup(es, key).Some?
    ensures key in AllConfig(es) ==> AllConfig(es)[key] == Lookup(es, key).value
  {
    if es != [] {
      var init := es[..|es| - 1];
      var last := es[|es| - 1];
      assert es == init + [last];
      AllConfigAgrees(init, key);
      LookupAppend(init, [last], key);
      if last.key == key {
        assert Lookup(init, key).None?;
      }
    }
  }

  class ConfigService {
    var entries: seq<Entry>

    ghost predicate Valid()
      reads this
    {
      UniqueKeys(entries)
    }

    constructor ()
      ensures Valid() && entries == []
    {
      entries := [];
    }

    /** `get_config`: the stored value of the first record with the key, else the default. */
    function GetConfig(key: string, default: Option<string>): (r: Option<string>)
      reads this
      ensures (forall i :: 0 <= i < |entries| ==> entries[i].key != key) ==> r == default
      ensures forall i :: FirstWithKey(entries, key, i) ==> r == Some(entries[i].value)
    {
      match Lookup(entries, key)
      case Some(v) => Some(v)
      case None => default
    }

    /** `set_config`: replaces every record with the key by one new record; always true. */
    method SetConfig(key: string, value: string) returns (ok: bool)
      requires Valid()
      modifies this
      ensures Valid()
      ensures ok
      ensures entries == Stored(old(entries), key, value)
      ensures GetConfig(key, None) == Some(value)
      ensures forall other :: other != key ==> GetConfig(other, None) == old(GetConfig(other, None))
    {
      var es := entries;
      var kept := Remove(es, key);
      SetLeavesOneRecord(es, key, value);
      SetThenGet(es, key, value);
      forall other | other != key
        ensures Lookup(Stored(es, key, value), other) == Lookup(es, other)
      {
        SetKeepsOthers(es, key, value, other);
      }
      entries := kept + [Entry(key, value)];
      return true;
    }

    /** The `remove(key == k)` half of an upsert: every record but those with the key, in order. */
    static method Remove(es: seq<Entry>, key: string) returns (kept: seq<Entry>)
      ensures kept == WithoutKey(es, key)
    {
      kept := [];
      var i := 0;
      while i < |es|
        invariant 0 <= i <= |es|
        invariant kept == WithoutKey(es[..i], key)
      {
        assert es[..i + 1] == es[..i] + [es[i]];
        WithoutKeyAppend(es[..i], es[i], key);
        if es[i].key != key {
          kept := kept + [es[i]];
        }
        i := i + 1;
      }
      assert es[..i] == es;
    }

    /** `get_serial_port`: the stored port, or the default when it is absent or empty. */
    function GetSerialPort(default: string): (r: string)
      reads this
      ensures Lookup(entries, SerialPortKey).None? ==> r == default
      ensures Lookup(entries, SerialPortKey) == Some("") ==> r == default
      ensures Truthy(Lookup(entries, SerialPortKey)) ==> r == Lookup(entries, SerialPortKey).value
    {
      OrElse(GetConfig(SerialPortKey, Some(default)), default)
    }

    /** `set_serial_port`: stores the port under its key; always true. */
    method SetSerialPort(port: string) returns (ok: bool)
      requires Valid()
      modifies this
      ensures Valid()
      ensures ok
      ensures entries == Stored(old(entries), SerialPortKey, port)
      ensures port != "" ==> GetSerialPort(DefaultSerialPort) == port
    {
      ok := SetConfig(SerialPortKey, port);
    }

    /** `get_all_config`: each stored key mapped to its stored value. */
    function GetAllConfig(): (m: map<string, string>)
      reads this
      requires Valid()
      ensures forall k :: k in m <==> Lookup(entries, k).Some?
      ensures forall k :: k in m ==> Some(m[k]) == GetConfig(k, None)
    {
      var m := AllConfig(entries);
      forall k ensures (k in m <==> Lookup(entries, k).Some?) && (k in m ==> m[k] == Lookup(entries, k).value) {
        AllConfigAgrees(entries, k);
      }
      m
    }
  }
}
