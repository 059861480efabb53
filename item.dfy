/**
 * One transaction row of a list: its badge, its title, the payer's first
 * name and the sign shown before the amount.
 */
module Item {
  import opened Wrappers
  import opened Types
  import Totals

  /**
   * The round badge: green for income, blue for transfers, otherwise red.
   * The amount takes green or blue the same way, and the default text colour otherwise.
   */
  datatype Badge = IncomingBadge | TransferBadge | OutgoingBadge

  function BadgeOf(k: TxType): (b: Badge)
    ensures b == IncomingBadge <==> k == Income
    ensures b == TransferBadge <==> k == Transfer
  {
    if k == Income then IncomingBadge
    else if k == Transfer then TransferBadge
    else OutgoingBadge
  }

  /** The sign written before the formatted amount. */
  function AmountPrefix(k: TxType): (r: string)
    ensures r == "-" <==> k == Expense
    ensures r == "+" <==> k == Income
    ensures r == "" <==> k == Transfer
  {
    match k
    case Expense => "-"
    case Transfer => ""
    case Income => assert "+"[0] != "-"[0]; "+"
  }

  /**
   * For a positive amount the sign shown agrees with the row's effect on the
   * household's net flow, and the red badge goes with exactly the rows
   * written with a minus.
   */
  lemma PrefixMatchesNetDelta(t: Transaction)
    requires t.amount > 0
    ensures AmountPrefix(t.kind) == "-" <==> Totals.NetDelta(t) < 0
    ensures AmountPrefix(t.kind) == "+" <==> Totals.NetDelta(t) > 0
    ensures AmountPrefix(t.kind) == "" <==> Totals.NetDelta(t) == 0
    ensures BadgeOf(t.kind) == OutgoingBadge <==> AmountPrefix(t.kind) == "-"
  {
  }

  /** ASCII upper case of one character; any other character is kept. */
  function UpperChar(c: char): (u: char)
    ensures 'a' <= c <= 'z' ==> 'A' <= u <= 'Z' && u as int == c as int - 32
    ensures !('a' <= c <= 'z') ==> u == c
  {
    if 'a' <= c <= 'z' then (c as int - 32) as char else c
  }

  function ToUpper(s: string): (r: string)
    ensures |r| == |s|
    ensures forall i :: 0 <= i < |s| ==> r[i] == UpperChar(s[i])
  {
    if s == [] then [] else [UpperChar(s[0])] + ToUpper(s[1..])
  }

  /**
   * The row's title. A transfer reads "Transfer to " and its destination in
   * capitals, or "undefined" when the row has none; any other row shows its
   * description, or its category when the description is empty.
   */
  function Title(t: Transaction): (r: string)
    ensures t.kind == Transfer && t.transferTo.Some? ==>
              r == "Transfer to " + ToUpper(MethodName(t.transferTo.value))
    ensures t.kind == Transfer && t.transferTo.None? ==> r == "Transfer to undefined"
    ensures t.kind != Transfer && t.description != "" ==> r == t.description
    ensures t.kind != Transfer && t.description == "" ==> r == t.category
  {
    if t.kind == Transfer then
      "Transfer to " + (if t.transferTo.Some? then ToUpper(MethodName(t.transferTo.value)) else "undefined")
    else if t.description != "" then t.description
    else t.category
  }

  /** The two destinations have the titles "Transfer to CASH" and "Transfer to BANK". */
  lemma TransferTitles(t: Transaction)
    requires t.kind == Transfer
    ensures t.transferTo == Some(Cash) ==> Title(t) == "Transfer to CASH"
    ensures t.transferTo == Some(Bank) ==> Title(t) == "Transfer to BANK"
  {
    if t.transferTo.Some? {
      var name := MethodName(t.transferTo.value);
      var upper := ToUpper(name);
      assert |upper| == 4 && upper[0] == UpperChar(name[0]) && upper[1] == UpperChar(name[1]);
      assert upper[2] == UpperChar(name[2]) && upper[3] == UpperChar(name[3]);
      if t.transferTo.value == Cash {
        assert upper == "CASH";
      } else {
        assert upper == "BANK";
      }
    }
  }

  /** `split(' ')[0]`: the text before the first space, or all of it. */
  function FirstWord(s: string): (r: string)
    ensures |r| <= |s| && r == s[..|r|]
    ensures forall i :: 0 <= i < |r| ==> r[i] != ' '
    ensures |r| < |s| ==> s[|r|] == ' '
  {
    if s == [] || s[0] == ' ' then [] else [s[0]] + FirstWord(s[1..])
  }

  /** A word followed by a space and anything is cut back to that word. */
  lemma {:induction false} FirstWordOfName(first: string, rest: string)
    requires forall i :: 0 <= i < |first| ==> first[i] != ' '
    ensures FirstWord(first + " " + rest) == first
  {
    if first != [] {
      assert (first + " " + rest)[1..] == first[1..] + " " + rest;
      FirstWordOfName(first[1..], rest);
    }
  }

  /** The payer shown under the title: the first word of the joined profile's full name, else "Unknown". */
  function PayerLabel(payer: Option<Profile>): (r: string)
    ensures r != [] && forall i :: 0 <= i < |r| ==> r[i] != ' '
    ensures payer.Some? && FirstWord(payer.value.fullName) != "" ==> r == FirstWord(payer.value.fullName)
    ensures payer.None? || FirstWord(payer.value.fullName) == "" ==> r == "Unknown"
  {
    var word := if payer.Some? then FirstWord(payer.value.fullName) else "";
    if word != "" then word else "Unknown"
  }

  /** A payer whose full name has a space in it is shown by the part before it. */
  lemma PayerFirstName(payer: Profile, first: string, rest: string)
    requires first != "" && forall i :: 0 <= i < |first| ==> first[i] != ' '
    requires payer.fullName == first + " " + rest
    ensures PayerLabel(Some(payer)) == first
  {
    FirstWordOfName(first, rest);
  }

  /** A name that starts with a space, like a row without a joined payer, shows as "Unknown". */
  lemma LeadingSpaceIsUnknown(payer: Profile)
    requires |payer.fullName| > 0 && payer.fullName[0] == ' '
    ensures PayerLabel(Some(payer)) == "Unknown"
  {
  }
}
