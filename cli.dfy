/**
 * Command-line arguments identified by their position: the usage listing, the parse that
 * stores each argument under its position, and the lookup by position.
 */
module Cli {
  import opened Lists
  import opened Text

  datatype Option<T> = None | Some(value: T)

  /** What a call ends with: normally, or with the exception it lets through. */
  datatype Outcome = Done | NullPointer | FormatError

  /** An argument definition: its name and its usage text. */
  datatype ArgDef = ArgDef(name: string, usage: string)

  /** A line of the usage listing: the title, or a name padded to the common width followed by its usage. */
  datatype UsageLine = TitleLine(title: string) | ArgLine(paddedName: string, usage: string)

  /** The length of the longest name, zero when there is none. */
  function MaxNameLength(defs: seq<ArgDef>): (m: nat)
    ensures forall i :: 0 <= i < |defs| ==> |defs[i].name| <= m
    ensures |defs| == 0 ==> m == 0
  {
    if defs == [] then 0
    else
      var m := MaxNameLength(defs[..|defs| - 1]);
      var last := defs[|defs| - 1];
      if |last.name| > m then |last.name| else m
  }

  /** The width is attained: some definition's name is exactly that long. */
  lemma {:induction false} MaxNameLengthAttained(defs: seq<ArgDef>)
    requires |defs| > 0
    ensures exists i :: 0 <= i < |defs| && |defs[i].name| == MaxNameLength(defs)
  {
    var front := defs[..|defs| - 1];
    if |front| > 0 && MaxNameLength(defs) == MaxNameLength(front) {
      MaxNameLengthAttained(front);
      var i :| 0 <= i < |front| && |front[i].name| == MaxNameLength(front);
      assert defs[i] == front[i];
    }
  }

  /** `%-ws`: the text left-aligned in a field of width w, padded with spaces. */
  function PadRight(s: string, w: nat): (p: string)
    ensures |p| == if |s| < w then w else |s|
    ensures p[..|s|] == s
    ensures forall i :: |s| <= i < |p| ==> p[i] == ' '
  {
    if |s| < w then s + seq(w - |s|, _ => ' ') else s
  }

  /** The line printed for each definition, in order. */
  function ArgLines(defs: seq<ArgDef>, w: nat): (ls: seq<UsageLine>)
    ensures |ls| == |defs|
    ensures forall i :: 0 <= i < |defs| ==> ls[i].ArgLine? && ls[i].usage == defs[i].usage
  {
    seq(|defs|, i requires 0 <= i < |defs| => ArgLine(PadRight(defs[i].name, w), defs[i].usage))
  }

  lemma ArgLinesStep(defs: seq<ArgDef>, i: nat, w: nat)
    requires i < |defs|
    ensures ArgLines(defs[..i + 1], w) == ArgLines(defs[..i], w) + [ArgLine(PadRight(defs[i].name, w), defs[i].usage)]
  {
  }

  /** With the width of the longest name, every listed name is padded to exactly that width and starts with the name. */
  lemma ArgLinesAligned(defs: seq<ArgDef>)
    ensures var ls := ArgLines(defs, MaxNameLength(defs));
      forall i :: 0 <= i < |defs| ==>
        |ls[i].paddedName| == MaxNameLength(defs) && ls[i].paddedName[..|defs[i].name|] == defs[i].name
  {
  }

  /** The values the parse stores: the i-th argument under the decimal string of i, for each i below n. */
  function Assigned(values: map<string, string>, args: seq<string>, n: nat): (v: map<string, string>)
    requires n <= |args|
  {
    if n == 0 then values else Assigned(values, args, n - 1)[NatStr(n - 1) := args[n - 1]]
  }

  /** After the parse, each position below n holds its argument. */
  lemma {:induction false} AssignedAt(values: map<string, string>, args: seq<string>, n: nat, p: nat)
    requires p < n <= |args|
    ensures NatStr(p) in Assigned(values, args, n) && Assigned(values, args, n)[NatStr(p)] == args[p]
  {
    if p < n - 1 {
      AssignedAt(values, args, n - 1, p);
      NatStrInjective(p, n - 1);
    }
  }

  /** Every key that is not the decimal string of a position below n is as it was. */
  lemma {:induction false} AssignedElsewhere(values: map<string, string>, args: seq<string>, n: nat, k: string)
    requires n <= |args|
    requires forall p :: 0 <= p < n ==> k != NatStr(p)
    ensures k in Assigned(values, args, n) <==> k in values
    ensures k in values ==> Assigned(values, args, n)[k] == values[k]
  {
    if n > 0 {
      AssignedElsewhere(values, args, n - 1, k);
    }
  }

  class PositionalArguments {
    var title: Option<string>
    /** The definitions, in the order the definition map iterates them. */
    var argDefs: seq<ArgDef>
    /** The stored values, by key. */
    var values: map<string, string>
    var printed: seq<UsageLine>
    /** The argument arrays reported to the error printer, in order. */
    var errorsReported: seq<Option<seq<string>>>

    constructor(title: Option<string>, argDefs: seq<ArgDef>)
      ensures this.title == title && this.argDefs == argDefs
      ensures values == map[] && printed == [] && errorsReported == []
    {
      this.title := title;
      this.argDefs := argDefs;
      values := map[];
      printed := [];
      errorsReported := [];
    }

    /**
     * `printUsage`: the title when there is one, then a line per definition with the name
     * padded to the longest name's length. When every name is empty, the width 0 makes the
     * format `%-0s` invalid and the first line throws.
     */
    method PrintUsage() returns (r: Outcome)
      modifies this`printed
      ensures var head := old(printed) + (if title.Some? then [TitleLine(title.value)] else []);
        (|argDefs| == 0 || MaxNameLength(argDefs) > 0 ==> r == Done && printed == head + ArgLines(argDefs, MaxNameLength(argDefs)))
        && (|argDefs| > 0 && MaxNameLength(argDefs) == 0 ==> r == FormatError && printed == head)
    {
      if title.Some? {
        printed := printed + [TitleLine(title.value)];
      }
      var maxLen := LongestName();
      if |argDefs| > 0 && maxLen == 0 {
        return FormatError;
      }
      PrintArgLines(maxLen);
      r := Done;
    }

    /** The second loop of `printUsage`: one line per definition, in order. */
    method PrintArgLines(width: nat)
      modifies this`printed
      ensures printed == old(printed) + ArgLines(argDefs, width)
    {
      var i := 0;
      while i < |argDefs|
        invariant 0 <= i <= |argDefs|
        invariant printed == old(printed) + ArgLines(argDefs[..i], width)
      {
        ArgLinesStep(argDefs, i, width);
        printed := printed + [ArgLine(PadRight(argDefs[i].name, width), argDefs[i].usage)];
        i := i + 1;
      }
      assert argDefs[..i] == argDefs;
    }

    /** The first loop of `printUsage`: the longest name's length. */
    method LongestName() returns (maxLen: nat)
      ensures maxLen == MaxNameLength(argDefs)
    {
      maxLen := 0;
      var i := 0;
      while i < |argDefs|
        invariant 0 <= i <= |argDefs|
        invariant maxLen == MaxNameLength(argDefs[..i])
      {
        assert argDefs[..i + 1][..i] == argDefs[..i];
        var len := |argDefs[i].name|;
        if len > maxLen {
          maxLen := len;
        }
        i := i + 1;
      }
      assert argDefs[..i] == argDefs;
    }

    /**
     * `parseArguments`: one argument per definition, stored under its position, until
     * the arguments run out. A null argument array fails on the first definition: it is
     * reported to the error printer and the exception is rethrown.
     */
    method ParseArguments(clArgs: Option<seq<string>>) returns (r: Outcome)
      modifies this`values, this`errorsReported
      ensures clArgs.None? && |argDefs| > 0 ==>
        r == NullPointer && values == old(values) && errorsReported == old(errorsReported) + [clArgs]
      ensures clArgs.Some? || |argDefs| == 0 ==> r == Done && errorsReported == old(errorsReported)
      ensures clArgs.Some? ==> values == Assigned(old(values), clArgs.value, Min(|argDefs|, |clArgs.value|))
      ensures clArgs.None? ==> values == old(values)
    {
      if |argDefs| == 0 {
        return Done;
      }
      if clArgs.None? {
        errorsReported := errorsReported + [clArgs];
        return NullPointer;
      }
      var args := clArgs.value;
      var pos := 0;
      ghost var start := values;
      while pos < |argDefs|
        invariant 0 <= pos <= |argDefs| && pos <= |args|
        invariant values == Assigned(start, args, pos)
        invariant errorsReported == old(errorsReported)
      {
        if pos >= |args| {
          break;
        }
        values := values[NatStr(pos) := args[pos]];
        pos := pos + 1;
      }
      assert pos == Min(|argDefs|, |args|);
      r := Done;
    }

    /** `getString(int)`: the value stored under the decimal string of the position, or null. */
    function GetString(position: int): (v: Option<string>)
      reads this
      ensures v.Some? <==> IntStr(position) in values
      ensures v.Some? ==> v.value == values[IntStr(position)]
    {
      if IntStr(position) in values then Some(values[IntStr(position)]) else None
    }
  }

  /**
   * Parsing then looking up: a position below both the definition count and the argument
   * count gives its argument; any other position gives what was stored before.
   */
  lemma ParseThenGet(before: map<string, string>, defCount: nat, args: seq<string>, position: int)
    ensures var after := Assigned(before, args, Min(defCount, |args|));
      var key := IntStr(position);
      (0 <= position < Min(defCount, |args|) ==> key in after && after[key] == args[position])
      && (!(0 <= position < Min(defCount, |args|)) ==>
            (key in after <==> key in before) && (key in before ==> after[key] == before[key]))
  {
    var n := Min(defCount, |args|);
    var key := IntStr(position);
    if 0 <= position < n {
      AssignedAt(before, args, n, position);
    } else {
      forall p | 0 <= p < n
        ensures key != NatStr(p)
      {
        if position < 0 {
          assert key[0] == '-' && IsDigit(NatStr(p)[0]);
        } else {
          NatStrInjective(position, p);
        }
      }
      AssignedElsewhere(before, args, n, key);
    }
  }
}
