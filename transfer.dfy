/** The transfer screen: an amount typed on the keypad, a recipient, and the
    guard in front of the transfer. Amounts are read as whole cents. */
module TransferScreen {
  import opened Types
  import opened Numerals

  /** A key of the keypad: a digit or the point. */
  predicate IsKey(c: char) {
    IsDigit(c) || c == '.'
  }

  /** `IsKey` names exactly the keypad's eleven keys. */
  lemma KeypadAlphabet()
    ensures forall c :: c in KeypadKeys <==> IsKey(c)
  {
    forall c | IsDigit(c) ensures c in KeypadKeys {
      assert c == '0' || c == '1' || c == '2' || c == '3' || c == '4' ||
             c == '5' || c == '6' || c == '7' || c == '8' || c == '9';
    }
  }

  /** Index of the first point of `s`. */
  function DotIndex(s: string): (d: nat)
    requires '.' in s
    ensures d < |s| && s[d] == '.' && '.' !in s[..d]
  {
    if s[0] == '.' then 0 else 1 + DotIndex(s[1..])
  }

  /** The digits after the point: `amount.split('.')[1]`, which is all of the
      rest because the text never holds a second point. */
  function Fraction(s: string): string
    requires '.' in s
  {
    s[DotIndex(s) + 1..]
  }

  /** What the editor keeps true of the amount text: keypad characters only,
      at most one point, at most two digits after it. */
  predicate WellFormedAmount(s: string) {
    (forall i :: 0 <= i < |s| ==> IsKey(s[i])) &&
    ('.' in s ==> '.' !in Fraction(s) && |Fraction(s)| <= 2)
  }

  /** The two early returns of `handleKeyPress`. */
  predicate Accepts(s: string, key: char) {
    !(key == '.' && '.' in s) && !('.' in s && |Fraction(s)| >= 2)
  }

  /** `handleKeyPress` on the amount text. */
  function Pressed(s: string, key: char): (r: string)
    requires WellFormedAmount(s) && IsKey(key)
    ensures WellFormedAmount(r)
    ensures r == s || r == s + [key]
    ensures key == '.' && '.' in s ==> r == s
    ensures '.' in s && |Fraction(s)| == 2 ==> r == s
  {
    if Accepts(s, key) then
      var r := s + [key];
      assert r[..|s|] == s;
      if '.' in s then
        assert DotIndex(r) == DotIndex(s) by { DotIndexOfExtension(s, [key]); }
        r
      else if key == '.' then
        assert DotIndex(r) == |s|;
        r
      else
        r
    else s
  }

  lemma {:induction false} DotIndexOfExtension(s: string, t: string)
    requires '.' in s
    ensures '.' in s + t && DotIndex(s + t) == DotIndex(s)
    decreases |s|
  {
    if s[0] != '.' {
      assert (s + t)[1..] == s[1..] + t;
      DotIndexOfExtension(s[1..], t);
    }
  }

  /** `handleDelete`: `amount.slice(0, -1)`. */
  function Deleted(s: string): (r: string)
    ensures s == [] ==> r == []
    ensures s != [] ==> r + [s[|s| - 1]] == s
  {
    if s == [] then [] else s[..|s| - 1]
  }

  lemma PressedAppends(s: string, key: char)
    requires WellFormedAmount(s) && IsKey(key) && Accepts(s, key)
    ensures Pressed(s, key) == s + [key]
  {
  }

  /** Deleting right after an accepted key press gives the text back. */
  lemma DeleteUndoesPress(s: string, key: char)
    requires WellFormedAmount(s) && IsKey(key) && Accepts(s, key)
    ensures Deleted(Pressed(s, key)) == s
  {
  }

  lemma {:induction false} DigitsBeforePoint(s: string)
    requires WellFormedAmount(s)
    ensures '.' in s ==> AllDigits(s[..DotIndex(s)]) && AllDigits(Fraction(s))
    ensures '.' !in s ==> AllDigits(s)
  {
  }

  /** Up to two digits after the point, read as cents. */
  function FractionCents(f: string): (c: nat)
    requires AllDigits(f) && |f| <= 2
    ensures c < 100
  {
    if |f| == 0 then 0
    else if |f| == 1 then 10 * DigitValue(f[0])
    else 10 * DigitValue(f[0]) + DigitValue(f[1])
  }

  /** `parseFloat(amount)` in cents, None standing for NaN: the text has no
      digit at all. */
  function ParseCents(s: string): (r: Option<nat>)
    requires WellFormedAmount(s)
    ensures r.None? <==> s == [] || s == "."
  {
    DigitsBeforePoint(s);
    if '.' in s then
      var d := DotIndex(s);
      if d == 0 && |s| == 1 then None
      else Some(DigitsValue(s[..d]) * 100 + FractionCents(Fraction(s)))
    else if s == [] then None
    else Some(DigitsValue(s) * 100)
  }

  /** Digits, a point and at most two digits make a well-formed amount
      whose point sits right after the whole part. */
  lemma {:induction false} PointedAmount(whole: string, tail: string)
    requires AllDigits(whole) && AllDigits(tail) && |tail| <= 2
    ensures var s := whole + "." + tail;
      WellFormedAmount(s) && '.' in s && DotIndex(s) == |whole| &&
      s[..|whole|] == whole && Fraction(s) == tail
  {
  }

  /** A whole part, a point and up to two digits parse to the whole part in
      hundreds plus the fraction in cents. */
  lemma ParsePointed(whole: string, tail: string)
    requires AllDigits(whole) && whole != [] && AllDigits(tail) && |tail| <= 2
    ensures WellFormedAmount(whole + "." + tail)
    ensures ParseCents(whole + "." + tail) == Some(DigitsValue(whole) * 100 + FractionCents(tail))
  {
    PointedAmount(whole, tail);
  }

  /** The two digits `toFixed(2)` writes after the point read back as the
      cents below a hundred. */
  lemma TwoDigitsRead(cents: nat)
    ensures FractionCents([DigitChar(cents % 100 / 10), DigitChar(cents % 10)]) == cents % 100
  {
    var n := cents % 100;
    var q := cents / 100;
    assert cents == 100 * q + n;
    assert n == 10 * (n / 10) + n % 10;
    LastDigit(cents, 10 * q + n / 10, n % 10);
  }

  /** What `toFixed(2)` writes is something the editor can hold, and it
      parses back to the same number of cents. */
  lemma FormattedAmountParsesBack(cents: nat)
    ensures WellFormedAmount(FormatCents(cents))
    ensures ParseCents(FormatCents(cents)) == Some(cents)
  {
    var whole := NatToString(cents / 100);
    var tail := [DigitChar(cents % 100 / 10), DigitChar(cents % 10)];
    assert FormatCents(cents) == whole + "." + tail;
    ParsePointed(whole, tail);
    DigitsValueOfNatToString(cents / 100);
    TwoDigitsRead(cents);
    assert cents == cents / 100 * 100 + cents % 100;
  }

  /** The text after pressing `keys` one after the other, starting from `s`. */
  function TypeKeys(s: string, keys: string): (r: string)
    requires WellFormedAmount(s) && forall i :: 0 <= i < |keys| ==> IsKey(keys[i])
    ensures WellFormedAmount(r)
    decreases |keys|
  {
    if keys == [] then s else Pressed(TypeKeys(s, keys[..|keys| - 1]), keys[|keys| - 1])
  }

  /** Dropping the last character of a well-formed amount leaves one that
      accepts that character again. */
  lemma PrefixAcceptsLast(t: string)
    requires WellFormedAmount(t) && t != []
    ensures WellFormedAmount(t[..|t| - 1]) && Accepts(t[..|t| - 1], t[|t| - 1])
  {
  }

  /** Every text the editor can hold can be typed from the empty text, one
      key per character: no accepted amount is out of the keypad's reach. */
  lemma {:induction false} EveryWellFormedAmountCanBeTyped(t: string)
    requires WellFormedAmount(t)
    ensures TypeKeys("", t) == t
    decreases |t|
  {
    if t != [] {
      var p, k := t[..|t| - 1], t[|t| - 1];
      PrefixAcceptsLast(t);
      EveryWellFormedAmountCanBeTyped(p);
      calc {
        TypeKeys("", t);
        Pressed(TypeKeys("", p), k);
        Pressed(p, k);
        { PressedAppends(p, k); }
        p + [k];
      }
      assert p + [k] == t;
    }
  }

  /** `handleSubmit`'s guard: the amount `onTransfer` is called with, if any.
      It is sent exactly when it parses to a number above zero and not above
      the balance. */
  function SubmitAmount(amount: string, balance: int): (r: Option<nat>)
    requires WellFormedAmount(amount)
    ensures r.Some? ==> r == ParseCents(amount) && 0 < r.value <= balance
    ensures ParseCents(amount).Some? && 0 < ParseCents(amount).value <= balance ==> r.Some?
  {
    match ParseCents(amount)
    case None => None
    case Some(v) => if v > 0 && v <= balance then Some(v) else None
  }

  /** The "Review & Send" button is enabled: some amount, some recipient, and
      not a number above the balance (a text that is not a number compares
      false, so it does not disable the button). */
  predicate SendEnabled(amount: string, recipient: string, balance: int)
    requires WellFormedAmount(amount)
  {
    amount != "" && recipient != "" &&
    !(ParseCents(amount).Some? && ParseCents(amount).value > balance)
  }

  /** Whenever the guard sends and a recipient is filled in, the button that
      calls it was enabled. */
  lemma SentOnlyWhenEnabled(amount: string, recipient: string, balance: int)
    requires WellFormedAmount(amount) && recipient != ""
    requires SubmitAmount(amount, balance).Some?
    ensures SendEnabled(amount, recipient, balance)
  {
  }

  /** The converse fails: "." and "0" enable the button and yet nothing is
      sent. */
  lemma EnabledWithoutSending(recipient: string, balance: int)
    requires recipient != "" && balance >= 0
    ensures WellFormedAmount(".") && SendEnabled(".", recipient, balance)
    ensures SubmitAmount(".", balance).None?
    ensures WellFormedAmount("0") && SendEnabled("0", recipient, balance)
    ensures SubmitAmount("0", balance).None?
  {
  }

  /** The transfer form: the amount text the keypad edits, the recipient
      field, and the balance handed down from the app. */
  class TransferForm {
    var amount: string
    var recipient: string
    const balance: int

    ghost predicate Valid()
      reads this
    {
      WellFormedAmount(amount)
    }

    constructor (balance: int)
      ensures Valid() && amount == "" && recipient == "" && this.balance == balance
    {
      amount := "";
      recipient := "";
      this.balance := balance;
    }

    /** `handleKeyPress` */
    method HandleKeyPress(key: char)
      requires Valid() && IsKey(key)
      modifies this`amount
      ensures Valid() && amount == Pressed(old(amount), key)
    {
      if key == '.' && '.' in amount {
        return;
      }
      if '.' in amount && |Fraction(amount)| >= 2 {
        return;
      }
      amount := amount + [key];
    }

    /** `handleDelete` */
    method HandleDelete()
      requires Valid()
      modifies this`amount
      ensures Valid() && amount == Deleted(old(amount))
    {
      if amount != [] {
        amount := amount[..|amount| - 1];
        assert amount + [old(amount)[|old(amount)| - 1]] == old(amount);
        PrefixAcceptsLast(old(amount));
      }
    }

    /** The recipient field's change handler. */
    method SetRecipient(text: string)
      requires Valid()
      modifies this`recipient
      ensures Valid() && recipient == text
    {
      recipient := text;
    }

    /** `handleSubmit`: the arguments of the `onTransfer` call, or None when
        the guard stops it. */
    method HandleSubmit() returns (call: Option<(nat, string)>)
      requires Valid()
      ensures call.Some? <==> SubmitAmount(amount, balance).Some?
      ensures call.Some? ==> call.value == (SubmitAmount(amount, balance).value, recipient)
    {
      var parsed := ParseCents(amount);
      if parsed.Some? && parsed.value > 0 && parsed.value <= balance {
        call := Some((parsed.value, recipient));
      } else {
        call := None;
      }
    }
  }
}
