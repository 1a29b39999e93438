/**
 * Python's `str.format`, restricted to what a format string with automatically
 * numbered replacement fields needs: `{}` takes the next positional argument,
 * `{{` and `}}` stand for a literal brace, a lone brace is an error, and too
 * few arguments is an error.  Surplus arguments are ignored, as in Python.
 */
module PyFormat {
  import opened Wrappers

  /** The exceptions `str.format` raises for the format strings modelled here. */
  datatype FormatError =
    | IndexOutOfRange   // more `{}` fields than positional arguments (IndexError)
    | SingleBrace       // a `}` not doubled, or a `{` ending the string (ValueError)
    | UnsupportedField  // `{` followed by a field name, index, conversion or spec

  /** Text that holds no brace, so `str.format` copies it unchanged. */
  predicate NoBraces(s: string) {
    forall i :: 0 <= i < |s| ==> s[i] != '{' && s[i] != '}'
  }

  /** Puts `s` in front of a successful result; passes an error through. */
  function Prepend(s: string, r: Result<string, FormatError>): Result<string, FormatError> {
    match r
    case Ok(v) => Ok(s + v)
    case Err(_) => r
  }

  /** `fmt.format(*args)`. Brace-free text is reproduced unchanged. */
  function Format(fmt: string, args: seq<string>): (r: Result<string, FormatError>)
    ensures NoBraces(fmt) ==> r == Ok(fmt)
    decreases |fmt|
  {
    if fmt == [] then Ok([])
    else if fmt[0] == '{' then
      if |fmt| == 1 then Err(SingleBrace)
      else if fmt[1] == '{' then Prepend("{", Format(fmt[2..], args))
      else if fmt[1] == '}' then
        if args == [] then Err(IndexOutOfRange)
        else Prepend(args[0], Format(fmt[2..], args[1..]))
      else Err(UnsupportedField)
    else if fmt[0] == '}' then
      if |fmt| >= 2 && fmt[1] == '}' then Prepend("}", Format(fmt[2..], args))
      else Err(SingleBrace)
    else
      assert [fmt[0]] + fmt[1..] == fmt;
      Prepend([fmt[0]], Format(fmt[1..], args))
  }

  /** The pieces `lits` joined by `sep`: the shape of a format string whose fields are all `{}`. */
  function Join(lits: seq<string>, sep: string): string
    requires |lits| >= 1
  {
    if |lits| == 1 then lits[0] else lits[0] + sep + Join(lits[1..], sep)
  }

  /** The literal pieces with one argument between each neighbouring pair. */
  function Interleave(lits: seq<string>, args: seq<string>): string
    requires |lits| == |args| + 1
  {
    if args == [] then lits[0] else lits[0] + args[0] + Interleave(lits[1..], args[1..])
  }

  /** Sum of the lengths of the strings in `ss`. */
  function TotalLength(ss: seq<string>): nat {
    if ss == [] then 0 else |ss[0]| + TotalLength(ss[1..])
  }

  /** Where argument `k` begins in `Interleave(lits, args)`. */
  function Offset(lits: seq<string>, args: seq<string>, k: nat): nat
    requires |lits| == |args| + 1 && k < |args|
  {
    if k == 0 then |lits[0]| else |lits[0]| + |args[0]| + Offset(lits[1..], args[1..], k - 1)
  }

  /** Prepending twice is prepending the concatenation. */
  lemma PrependTwice(a: string, b: string, r: Result<string, FormatError>)
    ensures Prepend(a, Prepend(b, r)) == Prepend(a + b, r)
  {
    match r
    case Ok(v) => assert a + (b + v) == (a + b) + v;
    case Err(_) =>
  }

  /** A character other than a brace is copied, and formatting goes on after it. */
  lemma FormatPlainChar(fmt: string, args: seq<string>)
    requires fmt != [] && fmt[0] != '{' && fmt[0] != '}'
    ensures Format(fmt, args) == Prepend([fmt[0]], Format(fmt[1..], args))
  {}

  /** Brace-free text in front of a format string is copied to the front of the result. */
  lemma {:induction false} FormatLiteral(lit: string, rest: string, args: seq<string>)
    requires NoBraces(lit)
    ensures Format(lit + rest, args) == Prepend(lit, Format(rest, args))
    decreases |lit|
  {
    if lit == [] {
      assert lit + rest == rest;
      match Format(rest, args)
      case Ok(v) => assert lit + v == v;
      case Err(_) =>
    } else {
      var fmt := lit + rest;
      assert fmt[0] == lit[0];
      assert fmt[1..] == lit[1..] + rest;
      FormatPlainChar(fmt, args);
      assert NoBraces(lit[1..]);
      FormatLiteral(lit[1..], rest, args);
      PrependTwice([lit[0]], lit[1..], Format(rest, args));
      assert [lit[0]] + lit[1..] == lit;
    }
  }

  /**
   * Formatting brace-free pieces joined by `{}` succeeds whenever there are
   * enough arguments, and yields the pieces interleaved with the first
   * `|lits| - 1` arguments, each copied verbatim.
   */
  lemma {:induction false} FormatJoin(lits: seq<string>, args: seq<string>)
    requires |lits| >= 1 && |args| >= |lits| - 1
    requires forall i :: 0 <= i < |lits| ==> NoBraces(lits[i])
    ensures Format(Join(lits, "{}"), args) == Ok(Interleave(lits, args[..|lits| - 1]))
    decreases |lits|
  {
    var n := |lits| - 1;
    if n == 0 {
      assert args[..0] == [];
      assert NoBraces(lits[0]);
    } else {
      assert Join(lits, "{}") == lits[0] + ("{}" + Join(lits[1..], "{}"));
      FormatField(lits[0], Join(lits[1..], "{}"), args);
      FormatJoin(lits[1..], args[1..]);
      assert args[1..][..n - 1] == args[..n][1..];
      assert Interleave(lits, args[..n]) == (lits[0] + args[0]) + Interleave(lits[1..], args[1..][..n - 1]);
    }
  }

  /** Brace-free text followed by `{}` formats to that text followed by the first argument. */
  lemma FormatField(lit: string, rest: string, args: seq<string>)
    requires NoBraces(lit) && |args| >= 1
    ensures Format(lit + ("{}" + rest), args) == Prepend(lit + args[0], Format(rest, args[1..]))
  {
    var fmt := "{}" + rest;
    FormatLiteral(lit, fmt, args);
    assert fmt[0] == '{' && fmt[1] == '}' && fmt[2..] == rest;
    assert Format(fmt, args) == Prepend(args[0], Format(rest, args[1..]));
    match Format(rest, args[1..])
    case Ok(v) => assert lit + (args[0] + v) == (lit + args[0]) + v;
    case Err(_) =>
  }

  /** Too few arguments for the `{}` fields between brace-free pieces raises IndexError. */
  lemma {:induction false} FormatJoinTooFew(lits: seq<string>, args: seq<string>)
    requires |lits| >= 1 && |args| < |lits| - 1
    requires forall i :: 0 <= i < |lits| ==> NoBraces(lits[i])
    ensures Format(Join(lits, "{}"), args) == Err(IndexOutOfRange)
    decreases |lits|
  {
    var tail := Join(lits[1..], "{}");
    assert Join(lits, "{}") == lits[0] + ("{}" + tail);
    assert NoBraces(lits[0]);
    if args == [] {
      var fmt := "{}" + tail;
      FormatLiteral(lits[0], fmt, args);
      assert fmt[0] == '{' && fmt[1] == '}';
    } else {
      FormatField(lits[0], tail, args);
      FormatJoinTooFew(lits[1..], args[1..]);
    }
  }

  /** A `{` that ends the format string raises ValueError. */
  lemma FormatTrailingOpenBrace(lit: string, args: seq<string>)
    requires NoBraces(lit)
    ensures Format(lit + "{", args) == Err(SingleBrace)
  {
    FormatLiteral(lit, "{", args);
  }

  /** A `}` that is not doubled raises ValueError. */
  lemma FormatSingleCloseBrace(lit: string, rest: string, args: seq<string>)
    requires NoBraces(lit) && (rest == [] || rest[0] != '}')
    ensures Format(lit + ("}" + rest), args) == Err(SingleBrace)
  {
    var fmt := "}" + rest;
    FormatLiteral(lit, fmt, args);
    assert fmt[0] == '}' && (|fmt| >= 2 ==> fmt[1] == rest[0]);
  }

  /** The interleaving is exactly as long as its pieces: nothing is trimmed or added. */
  lemma {:induction false} InterleaveLength(lits: seq<string>, args: seq<string>)
    requires |lits| == |args| + 1
    ensures |Interleave(lits, args)| == TotalLength(lits) + TotalLength(args)
    decreases |args|
  {
    if args != [] {
      InterleaveLength(lits[1..], args[1..]);
    } else {
      assert lits[1..] == [];
    }
  }

  /** Argument `k` appears verbatim at `Offset(lits, args, k)`. */
  lemma {:induction false} InterleaveAt(lits: seq<string>, args: seq<string>, k: nat)
    requires |lits| == |args| + 1 && k < |args|
    ensures Offset(lits, args, k) + |args[k]| <= |Interleave(lits, args)|
    ensures Interleave(lits, args)[Offset(lits, args, k)..Offset(lits, args, k) + |args[k]|] == args[k]
    decreases k
  {
    var s := Interleave(lits, args);
    if k == 0 {
      assert s == lits[0] + args[0] + Interleave(lits[1..], args[1..]);
      assert s[|lits[0]|..|lits[0]| + |args[0]|] == args[0];
    } else {
      var head := lits[0] + args[0];
      var t := Interleave(lits[1..], args[1..]);
      InterleaveAt(lits[1..], args[1..], k - 1);
      var o := Offset(lits[1..], args[1..], k - 1);
      assert s == head + t;
      assert s[|head| + o..|head| + o + |args[k]|] == t[o..o + |args[k]|];
    }
  }
}
