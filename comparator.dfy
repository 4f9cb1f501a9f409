/** The WHERE-clause predicate: an immutable column/operator/literal triple rendered as SQL text. */
module Comparators {
  import opened Wrappers

  /** A comparison `lval op 'rval'`. Being a datatype value, it cannot change after construction. */
  datatype Comparator = Comparator(lval: string, op: string, rval: string)

  /** The operator symbols the six factories fix. */
  const Operators: set<string> := {"=", "<", ">", ">=", "<=", "LIKE"}

  /** The SQL text `lval op 'rval'`. */
  function ToString(c: Comparator): (r: string)
    ensures |r| == |c.lval| + |c.op| + |c.rval| + 4
    ensures r[..|c.lval|] == c.lval && r[|r| - 1] == '\''
  {
    c.lval + " " + c.op + " '" + c.rval + "'"
  }

  /**
   * The layout of the text: the column and a space first, then the operator, a space and a
   * quote, then the literal copied verbatim (no escaping), and a closing quote last.
   */
  lemma ToStringLayout(c: Comparator)
    ensures var s := ToString(c);
      && |s| == |c.lval| + |c.op| + |c.rval| + 4
      && s[..|c.lval| + 1] == c.lval + " "
      && s[|c.lval| + 1..|c.lval| + 1 + |c.op|] == c.op
      && s[|c.lval| + 1 + |c.op|..|c.lval| + 3 + |c.op|] == " '"
      && s[|c.lval| + 3 + |c.op|..|s| - 1] == c.rval
      && s[|s| - 1] == '\''
  {
  }

  function EQ(lval: string, rval: string): (c: Comparator)
    ensures c.lval == lval && c.rval == rval && c.op in Operators
    ensures ToString(c) == lval + " = '" + rval + "'"
  {
    Comparator(lval, "=", rval)
  }

  function LT(lval: string, rval: string): (c: Comparator)
    ensures c.lval == lval && c.rval == rval && c.op in Operators
    ensures ToString(c) == lval + " < '" + rval + "'"
  {
    Comparator(lval, "<", rval)
  }

  function GT(lval: string, rval: string): (c: Comparator)
    ensures c.lval == lval && c.rval == rval && c.op in Operators
    ensures ToString(c) == lval + " > '" + rval + "'"
  {
    Comparator(lval, ">", rval)
  }

  function GET(lval: string, rval: string): (c: Comparator)
    ensures c.lval == lval && c.rval == rval && c.op in Operators
    ensures ToString(c) == lval + " >= '" + rval + "'"
  {
    Comparator(lval, ">=", rval)
  }

  function LET(lval: string, rval: string): (c: Comparator)
    ensures c.lval == lval && c.rval == rval && c.op in Operators
    ensures ToString(c) == lval + " <= '" + rval + "'"
  {
    Comparator(lval, "<=", rval)
  }

  function LIKE(lval: string, rval: string): (c: Comparator)
    ensures c.lval == lval && c.rval == rval && c.op in Operators
    ensures ToString(c) == lval + " LIKE '" + rval + "'"
  {
    Comparator(lval, "LIKE", rval)
  }

  /** Structural equality: operator, left and right operand all equal. */
  function Equals(a: Comparator, b: Comparator): (r: bool)
    ensures r <==> a == b
  {
    a.op == b.op && a.lval == b.lval && a.rval == b.rval
  }

  /** Index of the first occurrence of `x` in `s`, or `|s|` when there is none. */
  function IndexOf(s: string, x: char): (k: nat)
    ensures k <= |s|
    ensures k < |s| ==> s[k] == x
    ensures forall i :: 0 <= i < k ==> s[i] != x
  {
    if s == [] then 0
    else if s[0] == x then 0
    else 1 + IndexOf(s[1..], x)
  }

  /** Splits `s` at its first space into the word before it and the text after it. */
  function SplitAtSpace(s: string): (r: Option<(string, string)>)
  {
    var i := IndexOf(s, ' ');
    if i == |s| then None else Some((s[..i], s[i + 1..]))
  }

  /** The text between a leading and a trailing single quote. */
  function Unquote(s: string): (r: Option<string>)
  {
    if |s| >= 2 && s[0] == '\'' && s[|s| - 1] == '\'' then Some(s[1..|s| - 1]) else None
  }

  /**
   * Reads a rendered comparison back: the column is the text up to the first space, the
   * operator the next word, and the literal whatever stands between the final quotes.
   */
  function Parse(s: string): (r: Option<Comparator>)
  {
    match SplitAtSpace(s)
    case None => None
    case Some((lval, rest)) =>
      match SplitAtSpace(rest)
      case None => None
      case Some((op, quoted)) =>
        match Unquote(quoted)
        case None => None
        case Some(rval) => Some(Comparator(lval, op, rval))
  }

  lemma SplitAtFirstSpace(a: string, b: string)
    requires ' ' !in a
    ensures SplitAtSpace(a + " " + b) == Some((a, b))
  {
    var s := a + " " + b;
    assert s[|a|] == ' ';
    assert forall i :: 0 <= i < |a| ==> s[i] == a[i];
    assert IndexOf(s, ' ') == |a|;
    assert s[..|a|] == a;
    assert s[|a| + 1..] == b;
  }

  /**
   * Rendering loses nothing when neither the column nor the operator contains a space:
   * the literal may hold anything, quotes and spaces included.
   */
  lemma ParseToString(c: Comparator)
    requires ' ' !in c.lval && ' ' !in c.op
    ensures Parse(ToString(c)) == Some(c)
  {
    var quoted := "'" + c.rval + "'";
    var rest := c.op + " " + quoted;
    assert ToString(c) == c.lval + " " + rest;
    SplitAtFirstSpace(c.lval, rest);
    SplitAtFirstSpace(c.op, quoted);
    assert quoted[1..|quoted| - 1] == c.rval;
    assert Unquote(quoted) == Some(c.rval);
  }

  /** Every factory's operator is a single word, so its comparisons parse back. */
  lemma OperatorsHaveNoSpace(op: string)
    requires op in Operators
    ensures ' ' !in op
  {
  }

  /** Two comparators render to the same text only if they are equal (for space-free columns). */
  lemma {:induction false} ToStringInjective(a: Comparator, b: Comparator)
    requires a.op in Operators && b.op in Operators
    requires ' ' !in a.lval && ' ' !in b.lval
    requires ToString(a) == ToString(b)
    ensures a == b
  {
    OperatorsHaveNoSpace(a.op);
    OperatorsHaveNoSpace(b.op);
    ParseToString(a);
    ParseToString(b);
  }
}
