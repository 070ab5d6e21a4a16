/** The application's command-line flags: daemon mode, verbose output and the
    repeatable `-p key=value` property overrides, which are passed on to a
    restarted server process. */
module ApplicationFlags {
  import opened Base

  /** The `-p key=value` argument values for the keys in `order`: the empty key is
      skipped. */
  function PropertyValues(order: seq<string>, props: map<string, string>): (r: seq<string>)
    requires forall k :: k in order ==> k in props
    decreases |order|
  {
    if |order| == 0 then []
    else
      var n := |order| - 1;
      var k := order[n];
      PropertyValues(order[..n], props) + (if k != "" then [k + "=" + props[k]] else [])
  }

  /** The arguments `RegisterServerArgs` appends for the properties: "-p" before
      each value. */
  function PropertyArgs(values: seq<string>): seq<string>
    decreases |values|
  {
    if |values| == 0 then [] else PropertyArgs(values[..|values| - 1]) + ["-p", values[|values| - 1]]
  }

  /** The arguments interleave "-p" with the values, in order. */
  lemma {:induction false} PropertyArgsShape(values: seq<string>)
    ensures |PropertyArgs(values)| == 2 * |values|
    ensures forall j :: 0 <= j < |values| ==>
              PropertyArgs(values)[2 * j] == "-p" && PropertyArgs(values)[2 * j + 1] == values[j]
    decreases |values|
  {
    if |values| > 0 {
      var n := |values| - 1;
      PropertyArgsShape(values[..n]);
      var front := PropertyArgs(values[..n]);
      assert forall j :: 0 <= j < n ==> front[2 * j + 1] == values[j];
    }
  }

  /** The map `Set` builds from a sequence of flag values, each split at its first '='. */
  function Parsed(start: map<string, string>, values: seq<string>): map<string, string>
    decreases |values|
  {
    if |values| == 0 then start
    else
      var n := |values| - 1;
      var kv := SplitKeyValue(values[n]);
      Parsed(start, values[..n])[kv.0 := kv.1]
  }

  /** The overrides with a non-empty key among `order`. */
  function NonEmptyKeys(order: seq<string>, props: map<string, string>): map<string, string>
    requires forall k :: k in order ==> k in props
  {
    map k | k in order && k != "" :: props[k]
  }

  lemma NonEmptyKeysStep(order: seq<string>, props: map<string, string>)
    requires |order| > 0 && forall k :: k in order ==> k in props
    ensures var n := |order| - 1;
            NonEmptyKeys(order, props)
            == if order[n] != "" then NonEmptyKeys(order[..n], props)[order[n] := props[order[n]]]
               else NonEmptyKeys(order[..n], props)
  {
    var n := |order| - 1;
    assert forall key :: key in order <==> key in order[..n] || key == order[n];
  }

  lemma PropertyArgsSnoc(values: seq<string>, v: string)
    ensures PropertyArgs(values + [v]) == PropertyArgs(values) + ["-p", v]
  {
    assert (values + [v])[..|values|] == values;
  }

  /** One more key adds its "-p key=value" pair, or nothing for the empty key. */
  lemma PropertyArgsStep(order: seq<string>, i: nat, props: map<string, string>)
    requires i < |order| && forall k :: k in order ==> k in props
    ensures var k := order[i];
            PropertyArgs(PropertyValues(order[..i + 1], props))
            == PropertyArgs(PropertyValues(order[..i], props)) + (if k != "" then ["-p", k + "=" + props[k]] else [])
  {
    var k := order[i];
    assert order[..i + 1][..i] == order[..i];
    var before := PropertyValues(order[..i], props);
    if k == "" {
      assert PropertyValues(order[..i + 1], props) == before + [];
      assert before + [] == before;
    } else {
      assert PropertyValues(order[..i + 1], props) == before + [k + "=" + props[k]];
      PropertyArgsSnoc(before, k + "=" + props[k]);
    }
  }

  /** Parsing the emitted values again restores the properties, the empty key aside:
      keys stored by `Set` contain no '='. */
  lemma {:induction false} ParsedPropertyValues(order: seq<string>, props: map<string, string>)
    requires forall k :: k in order ==> k in props
    requires forall k :: k in props ==> '=' !in k
    ensures Parsed(map[], PropertyValues(order, props)) == NonEmptyKeys(order, props)
    decreases |order|
  {
    if |order| > 0 {
      var n := |order| - 1;
      var k := order[n];
      ParsedPropertyValues(order[..n], props);
      NonEmptyKeysStep(order, props);
      if k != "" {
        var before := PropertyValues(order[..n], props);
        var v := k + "=" + props[k];
        SplitKeyValueOfJoined(k, props[k]);
        assert PropertyValues(order, props) == before + [v];
        assert (before + [v])[..|before|] == before;
        assert SplitKeyValue(v) == (k, props[k]);
        assert Parsed(map[], before + [v]) == Parsed(map[], before)[k := props[k]];
      } else {
        assert PropertyValues(order, props) == PropertyValues(order[..n], props) + [];
        assert PropertyValues(order[..n], props) + [] == PropertyValues(order[..n], props);
      }
    }
  }

  /** The loop of `RegisterServerArgs`: appends "-p key=value" for every key of
      `order` that is not empty, in order. */
  method AppendPropertyArgs(head: seq<string>, order: seq<string>, props: map<string, string>)
    returns (r: seq<string>)
    requires forall k :: k in order ==> k in props
    ensures r == head + PropertyArgs(PropertyValues(order, props))
  {
    r := head;
    var i := 0;
    while i < |order|
      invariant 0 <= i <= |order|
      invariant r == head + PropertyArgs(PropertyValues(order[..i], props))
    {
      var k := order[i];
      PropertyArgsStep(order, i, props);
      if k != "" {
        r := r + ["-p", k + "=" + props[k]];
      }
      i := i + 1;
    }
    assert order[..i] == order;
  }

  class ApplicationFlags {
    const priority: int
    /** The flags once registered on a flag set (`nil` pointers before). */
    var daemon: Option<bool>
    var verbose: Option<bool>
    /** The property overrides; `None` is a nil map. */
    var properties: Option<map<string, string>>

    /** Keys stored by `Set` hold no '='. */
    ghost predicate Valid()
      reads this
    {
      properties.Some? ==> forall k :: k in properties.value ==> '=' !in k
    }

    constructor (priority: int)
      ensures Valid()
      ensures this.priority == priority && daemon.None? && verbose.None? && properties == Some(map[])
    {
      this.priority := priority;
      daemon := None;
      verbose := None;
      properties := Some(map[]);
    }

    /** `-p key=value`: splits at the first '=' (a value may hold more of them), a
        missing '=' giving the empty value; never fails, overwrites an earlier value
        and creates a nil map first. */
    method Set(value: string) returns (err: Option<string>)
      requires Valid()
      modifies this`properties
      ensures Valid() && err.None?
      ensures properties == Some((if old(properties).Some? then old(properties).value else map[])
                                 [SplitKeyValue(value).0 := SplitKeyValue(value).1])
    {
      if properties.None? {
        properties := Some(map[]);
      }
      SplitKeyValueParts(value);
      var i := IndexByte(value, '=');
      if i == -1 {
        properties := Some(properties.value[value := ""]);
      } else {
        properties := Some(properties.value[value[..i] := value[i + 1..]]);
      }
      err := None;
    }

    /** The flag set's parse of "-d" and "-v". */
    method RegisterFlags(parsedDaemon: bool, parsedVerbose: bool)
      modifies this`daemon, this`verbose
      ensures daemon == Some(parsedDaemon) && verbose == Some(parsedVerbose)
    {
      daemon := Some(parsedDaemon);
      verbose := Some(parsedVerbose);
    }

    /** False until the flags are registered. */
    function Daemon(): (r: bool)
      reads this
      ensures r <==> daemon == Some(true)
    {
      if daemon.Some? then daemon.value else false
    }

    function Verbose(): (r: bool)
      reads this
      ensures r <==> verbose == Some(true)
    {
      if verbose.Some? then verbose.value else false
    }

    /** The arguments of a restarted server: `args`, "-v" when verbose, then
        "-p key=value" for every property with a non-empty key, in the map's
        iteration order `order`. */
    method RegisterServerArgs(args: seq<string>, order: seq<string>) returns (r: seq<string>)
      requires properties.Some? ==> forall k :: k in order <==> k in properties.value
      requires properties.None? ==> order == []
      requires NoRepeats(order)
      ensures var props := if properties.Some? then properties.value else map[];
              r == args + (if Verbose() then ["-v"] else []) + PropertyArgs(PropertyValues(order, props))
    {
      var props := if properties.Some? then properties.value else map[];
      r := args;
      if Verbose() {
        r := r + ["-v"];
      }
      r := AppendPropertyArgs(r, order, props);
    }

    /** A property override: `("", false)` for a nil map or a missing key. */
    function GetProperty(key: string): (r: (string, bool))
      reads this
      ensures r.1 <==> properties.Some? && key in properties.value
      ensures r.1 ==> r.0 == properties.value[key]
      ensures !r.1 ==> r.0 == ""
    {
      if properties.None? then ("", false)
      else if key in properties.value then (properties.value[key], true)
      else ("", false)
    }
  }

  /** The property values a server is restarted with, set again one by one on fresh
      flags, give back every override with a non-empty key. */
  lemma ServerArgsRoundTrip(flags: ApplicationFlags, order: seq<string>)
    requires flags.Valid() && flags.properties.Some?
    requires forall k :: k in order <==> k in flags.properties.value
    ensures var props := flags.properties.value;
            Parsed(map[], PropertyValues(order, props)) == map k | k in props && k != "" :: props[k]
  {
    ParsedPropertyValues(order, flags.properties.value);
  }
}
