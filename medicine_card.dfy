/** `MedicineCard`: the per-medicine expiry flags and the banner, border and
    badges chosen from them. `days` gives, for an expiry date string, the whole
    days from now until that date (negative once it has passed). */
module MedicineCard {
  import opened Records
  import opened Text

  /** `medicine.expiry_date ? … : …`: a null or blank date counts as none. */
  predicate HasExpiry(m: Medicine)
  {
    Present(m.expiryDate)
  }

  function DaysUntilExpiry(m: Medicine, days: string -> int): (d: Option<int>)
    ensures d.None? <==> !HasExpiry(m)
    ensures d.Some? ==> d.value == days(m.expiryDate.value)
  {
    if HasExpiry(m) then Some(days(m.expiryDate.value)) else None
  }

  /** No lower bound: an expired medicine is also "expiring soon". */
  predicate IsExpiringSoon(m: Medicine, days: string -> int)
  {
    HasExpiry(m) && days(m.expiryDate.value) <= 7
  }

  predicate IsExpired(m: Medicine, days: string -> int)
  {
    HasExpiry(m) && days(m.expiryDate.value) < 0
  }

  /** Both flags are read off `DaysUntilExpiry`; a medicine without a date has
      neither, and expired implies expiring soon. */
  lemma ExpiryFlags(m: Medicine, days: string -> int)
    ensures IsExpiringSoon(m, days) <==> DaysUntilExpiry(m, days).Some? && DaysUntilExpiry(m, days).value <= 7
    ensures IsExpired(m, days) <==> DaysUntilExpiry(m, days).Some? && DaysUntilExpiry(m, days).value < 0
    ensures !HasExpiry(m) ==> !IsExpiringSoon(m, days) && !IsExpired(m, days)
    ensures IsExpired(m, days) ==> IsExpiringSoon(m, days)
  {
  }

  datatype Border = DestructiveBorder | YellowBorder | NoBorder

  /** The card's border colour. */
  function BorderOf(m: Medicine, days: string -> int): (b: Border)
    ensures b == DestructiveBorder <==> IsExpired(m, days)
    ensures b == YellowBorder <==> IsExpiringSoon(m, days) && !IsExpired(m, days)
    ensures b == NoBorder <==> !IsExpiringSoon(m, days)
  {
    if IsExpired(m, days) then DestructiveBorder
    else if IsExpiringSoon(m, days) then YellowBorder
    else NoBorder
  }

  /** The banner across the top of the card, if any. */
  function Banner(m: Medicine, days: string -> int): (text: Option<string>)
    ensures text.Some? <==> IsExpired(m, days) || IsExpiringSoon(m, days)
    ensures IsExpired(m, days) ==> text == Some("EXPIRED")
  {
    if IsExpired(m, days) then Some("EXPIRED")
    else if IsExpiringSoon(m, days) then Some("Expires in " + IntString(DaysUntilExpiry(m, days).value) + " days")
    else None
  }

  /** When not yet expired, the banner states the remaining days as one digit 0 to 7. */
  lemma BannerCountdown(m: Medicine, days: string -> int)
    requires IsExpiringSoon(m, days) && !IsExpired(m, days)
    ensures var d := DaysUntilExpiry(m, days).value;
            0 <= d <= 7 && Banner(m, days) == Some("Expires in " + [Digit(d)] + " days")
  {
    var d := DaysUntilExpiry(m, days).value;
    assert Decimal(d) == [Digit(d)];
  }

  /** The reminder badge's label. */
  function ReminderBadge(m: Medicine): (badge: string)
    ensures badge == "On" <==> m.reminderEnabled
    ensures badge == "On" || badge == "Off"
  {
    if m.reminderEnabled then "On" else "Off"
  }

  datatype ScheduleView = TimeBadges(times: seq<string>) | NoScheduleSet

  /** One badge per stored time, in stored order, or the "No schedule set" note. */
  function ScheduleViewOf(m: Medicine): (v: ScheduleView)
    ensures v.NoScheduleSet? <==> m.scheduleTimes == []
    ensures v.TimeBadges? ==> v.times == m.scheduleTimes
  {
    if |m.scheduleTimes| > 0 then TimeBadges(m.scheduleTimes) else NoScheduleSet
  }
}
