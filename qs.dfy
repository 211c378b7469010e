/** The query-string writer of the common utilities: every own entry of an
    object becomes `key=value`, an array value one `key[]=item` per item, and
    the parts are joined with '&'. encodeURIComponent is a parameter. */
module Qs {
  import opened Common

  /** An entry's value as stringify sees it: an array, with each item in the
      string form encodeURIComponent converts it to, or any other value in
      its string form. */
  datatype Field = Single(text: string) | Many(items: seq<string>)

  /** The argument: a falsy value, a truthy value whose typeof is not
      'object', or an object with its own enumerable entries in the order
      Object.entries lists them. */
  datatype Arg = Falsy | NotObject | Object(entries: seq<(string, Field)>)

  /** The parts an array value adds under the already encoded key. */
  function ItemParts(key: string, items: seq<string>, encode: string -> string): (r: seq<string>)
    ensures |r| == |items|
    ensures forall j :: 0 <= j < |r| ==> r[j] == key + "[]=" + encode(items[j])
  {
    if items == [] then []
    else ItemParts(key, items[..|items| - 1], encode) + [key + "[]=" + encode(items[|items| - 1])]
  }

  /** The parts one entry adds. */
  function EntryParts(key: string, f: Field, encode: string -> string): seq<string>
  {
    match f
    case Single(text) => [encode(key) + "=" + encode(text)]
    case Many(items) => ItemParts(encode(key), items, encode)
  }

  /** The parts of a sequence of entries, in order. */
  function Parts(entries: seq<(string, Field)>, encode: string -> string): seq<string>
  {
    if entries == [] then []
    else
      var last := entries[|entries| - 1];
      Parts(entries[..|entries| - 1], encode) + EntryParts(last.0, last.1, encode)
  }

  /** How many parts an entry contributes: one for a plain value, one per
      item for an array (none for an empty one). */
  function Weight(f: Field): nat
  {
    if f.Many? then |f.items| else 1
  }

  function TotalWeight(entries: seq<(string, Field)>): nat
  {
    if entries == [] then 0
    else TotalWeight(entries[..|entries| - 1]) + Weight(entries[|entries| - 1].1)
  }

  /** Array.prototype.join. */
  function Join(parts: seq<string>, sep: char): string
  {
    if |parts| == 0 then ""
    else if |parts| == 1 then parts[0]
    else parts[0] + [sep] + Join(parts[1..], sep)
  }

  /** The first position of c in s. */
  function IndexOf(s: string, c: char): (i: nat)
    requires c in s
    ensures i < |s| && s[i] == c
    ensures forall j :: 0 <= j < i ==> s[j] != c
  {
    if s[0] == c then 0
    else
      assert c in s[1..] by { var k :| 0 <= k < |s| && s[k] == c; assert s[1..][k - 1] == c; }
      1 + IndexOf(s[1..], c)
  }

  /** The first position of c is the one before which c does not occur. */
  lemma FirstIndex(s: string, c: char, m: nat)
    requires m < |s| && s[m] == c
    requires forall j :: 0 <= j < m ==> s[j] != c
    ensures IndexOf(s, c) == m
  {
  }

  /** String.prototype.split on one character: the reading side of Join. */
  function Split(s: string, sep: char): (r: seq<string>)
    ensures |r| >= 1
    decreases |s|
  {
    if sep in s then
      var i := IndexOf(s, sep);
      [s[..i]] + Split(s[i + 1..], sep)
    else [s]
  }

  /** The forEach over an array value: one `key[]=item` part per item,
      pushed in order. */
  method PushItems(parts: seq<string>, key: string, items: seq<string>, encode: string -> string)
    returns (r: seq<string>)
    ensures r == parts + ItemParts(key, items, encode)
  {
    r := parts;
    var j := 0;
    while j < |items|
      invariant 0 <= j <= |items|
      invariant r == parts + ItemParts(key, items[..j], encode)
    {
      assert items[..j + 1][..j] == items[..j];
      r := r + [key + "[]=" + encode(items[j])];
      j := j + 1;
    }
    assert items[..j] == items;
  }

  /** stringify: an argument that is falsy or not an object is refused;
      otherwise each entry in order adds its parts, and the result is the
      parts joined with '&'. */
  method Stringify(arg: Arg, encode: string -> string) returns (r: Result<string>)
    ensures r.Ok? <==> arg.Object?
    ensures !arg.Object? ==> r == Err(ObjectRequired)
    ensures arg.Object? ==> r.value == Join(Parts(arg.entries, encode), '&')
  {
    if !arg.Object? {
      return Err(ObjectRequired);
    }
    var parts: seq<string> := [];
    var i := 0;
    while i < |arg.entries|
      invariant 0 <= i <= |arg.entries|
      invariant parts == Parts(arg.entries[..i], encode)
    {
      var (k, value) := arg.entries[i];
      assert arg.entries[..i + 1][..i] == arg.entries[..i];
      match value {
        case Many(items) =>
          parts := PushItems(parts, encode(k), items, encode);
        case Single(text) =>
          parts := parts + [encode(k) + "=" + encode(text)];
      }
      i := i + 1;
    }
    assert arg.entries[..i] == arg.entries;
    return Ok(Join(parts, '&'));
  }

  /** The number of parts is the entries' total weight. */
  lemma {:induction false} PartsCount(entries: seq<(string, Field)>, encode: string -> string)
    ensures |Parts(entries, encode)| == TotalWeight(entries)
    decreases |entries|
  {
    if entries != [] {
      PartsCount(entries[..|entries| - 1], encode);
    }
  }

  /** Entries contribute independently: the parts of two runs of entries are
      the parts of the first followed by those of the second. */
  lemma {:induction false} PartsAppend(a: seq<(string, Field)>, b: seq<(string, Field)>, encode: string -> string)
    ensures Parts(a + b, encode) == Parts(a, encode) + Parts(b, encode)
    decreases |b|
  {
    if b == [] {
      assert a + b == a;
    } else {
      var n := |b| - 1;
      assert (a + b)[..|a + b| - 1] == a + b[..n];
      assert (a + b)[|a + b| - 1] == b[n];
      PartsAppend(a, b[..n], encode);
      AppendAssoc(Parts(a, encode), Parts(b[..n], encode), EntryParts(b[n].0, b[n].1, encode));
    }
  }

  /** Join's separator can be found again: parts free of the separator are
      recovered by Split. */
  lemma {:induction false} SplitJoin(parts: seq<string>, sep: char)
    requires |parts| >= 1
    requires forall k :: 0 <= k < |parts| ==> sep !in parts[k]
    ensures Split(Join(parts, sep), sep) == parts
    decreases |parts|
  {
    if |parts| > 1 {
      var p := parts[0];
      var rest := Join(parts[1..], sep);
      var s := p + [sep] + rest;
      assert s[|p|] == sep;
      assert sep in s;
      assert Join(parts, sep) == s;
      assert forall j :: 0 <= j < |p| ==> s[j] == p[j];
      FirstIndex(s, sep, |p|);
      assert s[..|p|] == p;
      assert s[|p| + 1..] == rest;
      SplitJoin(parts[1..], sep);
      assert Split(s, sep) == [p] + parts[1..];
    }
  }

  /** When encodeURIComponent never yields '&' (it escapes it), splitting the
      query string on '&' gives back exactly the parts stringify built; an
      object with no parts at all gives the empty string. */
  lemma StringifySplits(entries: seq<(string, Field)>, encode: string -> string)
    requires forall t :: '&' !in encode(t)
    ensures Parts(entries, encode) == [] ==> Join(Parts(entries, encode), '&') == ""
    ensures Parts(entries, encode) != [] ==>
      Split(Join(Parts(entries, encode), '&'), '&') == Parts(entries, encode)
  {
    var ps := Parts(entries, encode);
    if ps != [] {
      PartsFree(entries, encode);
      SplitJoin(ps, '&');
    }
  }

  /** No part contains '&' when encodeURIComponent never yields one. */
  lemma {:induction false} PartsFree(entries: seq<(string, Field)>, encode: string -> string)
    requires forall t :: '&' !in encode(t)
    ensures forall k :: 0 <= k < |Parts(entries, encode)| ==> '&' !in Parts(entries, encode)[k]
    decreases |entries|
  {
    if entries != [] {
      PartsFree(entries[..|entries| - 1], encode);
      var key := entries[|entries| - 1].0;
      var f := entries[|entries| - 1].1;
      var e := EntryParts(key, f, encode);
      forall k | 0 <= k < |e|
        ensures '&' !in e[k]
      {
        if f.Single? {
          assert e[k] == encode(key) + "=" + encode(f.text);
        } else {
          assert e[k] == encode(key) + "[]=" + encode(f.items[k]);
        }
      }
    }
  }
}
