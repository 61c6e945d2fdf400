/**
  Column labels of the four uploaded tables. Every table's labels are
  canonicalised after reading (strip, lower-case, spaces to underscores),
  and the payout table's `orders` label is renamed `payout_orders` so that
  it cannot collide with the tracking table's `orders` in the joins.
*/
module Columns {

  /**
    The characters Python's `str.strip()` removes: ASCII whitespace, the
    four information separators, NEL, NO-BREAK SPACE and the Unicode space
    separators.
  */
  predicate IsSpace(c: char)
  {
    c == ' ' || c == '\t' || c == '\n' || c == '\r' || c == '\U{000B}' || c == '\U{000C}'
    || ('\U{001C}' <= c <= '\U{001F}') || c == '\U{0085}' || c == '\U{00A0}' || c == '\U{1680}'
    || ('\U{2000}' <= c <= '\U{200A}') || c == '\U{2028}' || c == '\U{2029}' || c == '\U{202F}'
    || c == '\U{205F}' || c == '\U{3000}'
  }

  predicate IsUpper(c: char)
  {
    'A' <= c <= 'Z'
  }

  /** Neither end of `s` is whitespace. */
  predicate Stripped(s: string)
  {
    s == [] || (!IsSpace(s[0]) && !IsSpace(s[|s| - 1]))
  }

  /** Length of the run of whitespace at the front of `s`. */
  function LeadingSpaces(s: string): (k: nat)
    ensures k <= |s|
    ensures forall i :: 0 <= i < k ==> IsSpace(s[i])
    ensures k == |s| || !IsSpace(s[k])
  {
    if s == [] || !IsSpace(s[0]) then 0 else 1 + LeadingSpaces(s[1..])
  }

  /** Length of the run of whitespace at the back of `s`. */
  function TrailingSpaces(s: string): (k: nat)
    ensures k <= |s|
    ensures forall i :: |s| - k <= i < |s| ==> IsSpace(s[i])
    ensures k == |s| || !IsSpace(s[|s| - 1 - k])
  {
    if s == [] || !IsSpace(s[|s| - 1]) then 0 else 1 + TrailingSpaces(s[..|s| - 1])
  }

  /**
    `str.strip()`: `s` without the whitespace at either end. The result is
    a slice of `s`, everything cut off is whitespace, and what is kept
    neither starts nor ends with whitespace, so it is the largest such slice.
  */
  function Strip(s: string): (r: string)
    ensures Stripped(r)
    ensures |r| <= |s| - LeadingSpaces(s)
    ensures r == s[LeadingSpaces(s)..LeadingSpaces(s) + |r|]
    ensures forall i :: LeadingSpaces(s) + |r| <= i < |s| ==> IsSpace(s[i])
  {
    var a := LeadingSpaces(s);
    var t := s[a..];
    var b := TrailingSpaces(t);
    assert t[..|t| - b] == s[a..a + |t| - b];
    t[..|t| - b]
  }

  /** Stripping a stripped label changes nothing. */
  lemma StripStripped(s: string)
    requires Stripped(s)
    ensures Strip(s) == s
  {
    assert LeadingSpaces(s) == 0;
    assert s[0..] == s;
    assert TrailingSpaces(s) == 0;
  }

  /** The lower-case letter of an upper-case ASCII letter; any other character as it is. */
  function LowerChar(c: char): (d: char)
    ensures IsUpper(c) ==> 'a' <= d <= 'z' && d as int - c as int == 'a' as int - 'A' as int
    ensures !IsUpper(c) ==> d == c
  {
    if IsUpper(c) then (c as int + 32) as char else c
  }

  /** `str.lower()` on the ASCII letters. */
  function Lower(s: string): (r: string)
    ensures |r| == |s|
    ensures forall i :: 0 <= i < |r| ==> !IsUpper(r[i])
    ensures forall i :: 0 <= i < |r| ==> (IsSpace(r[i]) <==> IsSpace(s[i])) && (r[i] == ' ' <==> s[i] == ' ')
    ensures forall i :: 0 <= i < |s| && IsUpper(s[i]) ==> r[i] as int == s[i] as int + ('a' as int - 'A' as int)
    ensures forall i :: 0 <= i < |s| && !IsUpper(s[i]) ==> r[i] == s[i]
  {
    seq(|s|, i requires 0 <= i < |s| => LowerChar(s[i]))
  }

  /** `str.replace(' ', '_')`. */
  function SpacesToUnderscores(s: string): (r: string)
    ensures |r| == |s|
    ensures forall i :: 0 <= i < |r| ==> r[i] != ' '
    ensures forall i :: 0 <= i < |s| && s[i] == ' ' ==> r[i] == '_'
    ensures forall i :: 0 <= i < |s| && s[i] != ' ' ==> r[i] == s[i]
  {
    seq(|s|, i requires 0 <= i < |s| => if s[i] == ' ' then '_' else s[i])
  }

  /**
    The canonical form of a column label (app.py line 23): no whitespace at
    either end, no upper-case ASCII letter and no space character anywhere.
  */
  function Normalize(col: string): (r: string)
    ensures Stripped(r)
    ensures forall i :: 0 <= i < |r| ==> !IsUpper(r[i]) && r[i] != ' '
    ensures |r| == |Strip(col)|
    ensures forall i :: 0 <= i < |r| ==>
      && (Strip(col)[i] == ' ' ==> r[i] == '_')
      && (IsUpper(Strip(col)[i]) ==> r[i] == LowerChar(Strip(col)[i]))
      && (!IsUpper(Strip(col)[i]) && Strip(col)[i] != ' ' ==> r[i] == Strip(col)[i])
  {
    var s := Strip(col);
    var l := Lower(s);
    var r := SpacesToUnderscores(l);
    assert r != [] ==> r[0] == l[0] && r[|r| - 1] == l[|l| - 1];
    r
  }

  /** A label with no whitespace at either end, no upper-case ASCII letter and no space is its own canonical form. */
  lemma NormalizeCanonical(col: string)
    requires Stripped(col)
    requires forall i :: 0 <= i < |col| ==> !IsUpper(col[i]) && col[i] != ' '
    ensures Normalize(col) == col
  {
    StripStripped(col);
    var l := Lower(col);
    assert l == col by {
      forall i | 0 <= i < |col| ensures l[i] == col[i] {
        assert !IsUpper(col[i]);
      }
    }
    var u := SpacesToUnderscores(l);
    assert u == col by {
      forall i | 0 <= i < |col| ensures u[i] == col[i] {
        assert l[i] != ' ';
      }
    }
  }

  /** Canonicalising a canonical label changes nothing. */
  lemma NormalizeIdempotent(col: string)
    ensures Normalize(Normalize(col)) == Normalize(col)
  {
    NormalizeCanonical(Normalize(col));
  }

  /** `df.columns = df.columns.str.strip().str.lower().str.replace(' ', '_')`. */
  function NormalizeColumns(labels: seq<string>): (r: seq<string>)
    ensures |r| == |labels|
    ensures forall i :: 0 <= i < |r| ==> r[i] == Normalize(labels[i])
  {
    seq(|labels|, i requires 0 <= i < |labels| => Normalize(labels[i]))
  }

  const OrdersColumn: string := "orders"
  const PayoutOrdersColumn: string := "payout_orders"

  /**
    `rename(columns={'orders': 'payout_orders'})` (app.py line 32): no
    `orders` label is left, each former `orders` is now `payout_orders`,
    every other label is untouched.
  */
  function RenamePayoutOrders(labels: seq<string>): (r: seq<string>)
    ensures |r| == |labels|
    ensures OrdersColumn !in r
    ensures forall i :: 0 <= i < |r| && labels[i] == OrdersColumn ==> r[i] == PayoutOrdersColumn
    ensures forall i :: 0 <= i < |r| && labels[i] != OrdersColumn ==> r[i] == labels[i]
  {
    seq(|labels|, i requires 0 <= i < |labels| => if labels[i] == OrdersColumn then PayoutOrdersColumn else labels[i])
  }

  /** The payout table's labels as the joins see them. */
  function PayoutColumns(raw: seq<string>): seq<string>
  {
    RenamePayoutOrders(NormalizeColumns(raw))
  }

  /**
    Any raw payout label that canonicalises to `orders` (" Orders ", "ORDERS")
    reaches the joins as `payout_orders`, a label canonicalisation leaves
    as it is; a tracking label written `orders` reaches the joins unchanged
    and is never renamed, so both columns survive the joins.
  */
  lemma PayoutOrdersRenamed(raw: seq<string>, tracking: seq<string>)
    ensures |PayoutColumns(raw)| == |raw|
    ensures OrdersColumn !in PayoutColumns(raw)
    ensures forall i :: 0 <= i < |raw| && Normalize(raw[i]) == OrdersColumn ==>
      PayoutColumns(raw)[i] == PayoutOrdersColumn
    ensures forall i :: 0 <= i < |raw| && Normalize(raw[i]) != OrdersColumn ==>
      PayoutColumns(raw)[i] == Normalize(raw[i])
    ensures Normalize(PayoutOrdersColumn) == PayoutOrdersColumn
    ensures forall i :: 0 <= i < |tracking| && tracking[i] == OrdersColumn ==>
      NormalizeColumns(tracking)[i] == OrdersColumn
  {
    NormalizeCanonical(OrdersColumn);
    NormalizeCanonical(PayoutOrdersColumn);
  }

  /** A label with mixed case, inner and outer blanks. */
  lemma NormalizeExample()
    ensures Normalize(" Total Payout ") == "total_payout"
  {
    var s := " Total Payout ";
    assert LeadingSpaces(s[1..]) == 0;
    assert LeadingSpaces(s) == 1;
    var t := s[1..];
    assert t[..|t| - 1] == "Total Payout";
    assert TrailingSpaces(t[..|t| - 1]) == 0;
    assert TrailingSpaces(t) == 1;
    assert Strip(s) == "Total Payout";
    assert Lower("Total Payout") == "total payout";
  }
}
