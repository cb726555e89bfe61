/**
 * The argument transformer of the adapter's utility module: it folds the
 * positional arguments of a vendor event into a record keyed by the
 * descriptor's argument names.
 */
module Utils {
  import opened JsValues

  /** The `event` field of every command response envelope. */
  const EventCommandResult: string := "command result"

  /** `args[index]`, which is `undefined` past the end of the argument list. */
  function ArgAt(args: seq<Value>, index: nat): Value {
    if index < |args| then args[index] else Undefined
  }

  /** No name occurs twice in `names`. */
  predicate Distinct(names: seq<string>) {
    forall i, j :: 0 <= i < j < |names| ==> names[i] != names[j]
  }

  /** Position `i` is the last occurrence of its name in `names`. */
  predicate LastOccurrence(names: seq<string>, i: nat)
    requires i < |names|
  {
    forall j :: i < j < |names| ==> names[j] != names[i]
  }

  /**
   * The record `names.reduce((acc, name, index) => { acc[name] = args[index]; ... }, {})`.
   * The fold runs left to right, so the record after the whole list is the
   * record after its prefix with the last name assigned. Its keys are
   * exactly the names: surplus arguments are not stored under any key.
   */
  function TransformArguments(names: seq<string>, args: seq<Value>): (r: map<string, Value>)
    ensures forall k :: k in r <==> k in names
    decreases |names|
  {
    if names == [] then map[]
    else
      var n := |names| - 1;
      assert forall k :: k in names <==> k in names[..n] || k == names[n];
      TransformArguments(names[..n], args)[names[n] := ArgAt(args, n)]
  }

  /**
   * Every name is bound to the argument at its LAST position (a later
   * duplicate overwrites an earlier one); an argument past the end of `args`
   * is `undefined`.
   */
  lemma {:induction false} BindsLastOccurrence(names: seq<string>, args: seq<Value>, i: nat)
    requires i < |names| && LastOccurrence(names, i)
    ensures TransformArguments(names, args)[names[i]] == ArgAt(args, i)
    decreases |names|
  {
    var n := |names| - 1;
    var prefix := names[..n];
    assert TransformArguments(names, args) == TransformArguments(prefix, args)[names[n] := ArgAt(args, n)];
    if i < n {
      assert prefix[i] == names[i];
      assert LastOccurrence(prefix, i);
      BindsLastOccurrence(prefix, args, i);
      assert names[n] != names[i];
    }
  }

  /** `getArgumentsTransformer(names)`: the handler attached to an event descriptor. */
  function GetArgumentsTransformer(names: seq<string>): (handler: seq<Value> -> map<string, Value>)
    ensures forall args :: handler(args) == TransformArguments(names, args)
  {
    args => TransformArguments(names, args)
  }

  /**
   * With pairwise distinct names, field `names[i]` holds `args[i]` unchanged
   * when that argument was supplied, and `undefined` when it was not.
   */
  lemma DistinctNamesBindByPosition(names: seq<string>, args: seq<Value>, i: nat)
    requires Distinct(names)
    requires i < |names|
    ensures i < |args| ==> TransformArguments(names, args)[names[i]] == args[i]
    ensures i >= |args| ==> TransformArguments(names, args)[names[i]] == Undefined
  {
    BindsLastOccurrence(names, args, i);
  }

  /** With no names the record is empty, whatever arguments are given. */
  lemma EmptyNamesGiveEmptyRecord(args: seq<Value>)
    ensures TransformArguments([], args) == map[]
  {
  }

  /**
   * Arguments beyond the named ones are dropped: appending any `extra`
   * arguments after the first `|names|` leaves the record unchanged, and no
   * key other than the names (in particular no `other`) appears.
   */
  lemma {:induction false} SurplusArgumentsDropped(names: seq<string>, args: seq<Value>, extra: seq<Value>)
    requires |args| >= |names|
    ensures TransformArguments(names, args + extra) == TransformArguments(names, args)
    ensures "other" !in names ==> "other" !in TransformArguments(names, args + extra)
    decreases |names|
  {
    if names != [] {
      var n := |names| - 1;
      SurplusArgumentsDropped(names[..n], args, extra);
      assert ArgAt(args + extra, n) == ArgAt(args, n);
    }
  }

  /**
   * A name that occurs twice takes the argument at its later position: for
   * `["a", "a"]` the record is `{a: args[1]}`.
   */
  lemma LaterDuplicateWins(name: string, first: Value, second: Value)
    ensures TransformArguments([name, name], [first, second]) == map[name := second]
  {
    BindsLastOccurrence([name, name], [first, second], 1);
  }

  /**
   * The example of the utility test, as the code computes it: the station and
   * device arguments are stored as given (their property bags are NOT
   * unwrapped) and the sixth argument is dropped (there is no `other` field).
   */
  lemma TransformerExampleAsCoded(station: Value, device: Value)
    ensures var r := TransformArguments(["station", "device", "a", "b", "c"],
                                        [station, device, Str("a"), Str("b"), Str("c"), Str("d")]);
            r["station"] == station && r["device"] == device && "other" !in r
  {
    var names := ["station", "device", "a", "b", "c"];
    var args := [station, device, Str("a"), Str("b"), Str("c"), Str("d")];
    BindsLastOccurrence(names, args, 0);
    BindsLastOccurrence(names, args, 1);
  }
}
