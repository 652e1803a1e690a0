/** The app header's notification bell and its unread badge. */
module Header {
  import opened Types
  import opened Numerals

  /** The badge over the bell: absent with nothing unread, the count itself
      up to nine, and "9+" beyond. */
  function BadgeLabel(unreadCount: nat): (badge: Option<string>)
    ensures badge.None? <==> unreadCount == 0
    ensures badge.Some? ==> 1 <= |badge.value| <= 2
    ensures 0 < unreadCount <= 9 ==>
      badge.Some? && |badge.value| == 1 &&
      AllDigits(badge.value) && DigitsValue(badge.value) == unreadCount
    ensures unreadCount > 9 ==> badge == Some("9+")
  {
    if unreadCount == 0 then None
    else if unreadCount > 9 then Some("9+")
    else
      assert NatToString(unreadCount) == [DigitChar(unreadCount)];
      DigitsValueOfNatToString(unreadCount);
      Some(NatToString(unreadCount))
  }

  /** Two counts get the same badge exactly when they are equal or both
      exceed nine: the badge tells every count up to nine apart and
      nothing beyond. */
  lemma BadgeSeparatesSmallCounts(a: nat, b: nat)
    ensures BadgeLabel(a) == BadgeLabel(b) <==> a == b || (a > 9 && b > 9)
  {
  }
}
