/** The appointments card among the dashboard's stat cards: it counts the
    appointments from today on, adds up their potential revenue, and shows
    both next to today's date. */
module StatsCards {
  import opened Common

  // ---------------------------------------------------------------------
  // The card's text
  // ---------------------------------------------------------------------

  predicate IsLowerLatin(c: char)
  {
    'a' <= c <= 'z' || ('\U{00E0}' <= c <= '\U{00FE}' && c != '\U{00F7}')
  }

  /** `toUpperCase` on one character, for ASCII and the Latin-1 small
      letters that have a one-character capital in Latin-1. */
  function UpperChar(c: char): (r: char)
    ensures !IsLowerLatin(c) ==> r == c
    ensures IsLowerLatin(c) ==> IsUpper(r) && LowerChar(r) == c
  {
    if IsLowerLatin(c) then (c as int - 32) as char else c
  }

  /** `s.charAt(0).toUpperCase() + s.slice(1)`. */
  function Capitalize(s: string): (r: string)
    ensures |r| == |s|
    ensures s != [] ==> r[0] == UpperChar(s[0]) && r[1..] == s[1..]
    ensures s != [] && !IsLowerLatin(s[0]) ==> r == s
  {
    if s == [] then [] else [UpperChar(s[0])] + s[1..]
  }

  /** The date is formatted `d MMMM`, which starts with the day number, so
      capitalising it changes nothing. */
  lemma CapitalizedDateUnchanged(day: nat, monthName: string)
    ensures Capitalize(NatToString(day) + " " + monthName) == NatToString(day) + " " + monthName
  {
    var s := NatToString(day) + " " + monthName;
    assert s[0] == NatToString(day)[0];
  }

  /** The card's value: the count, or "Aucun" when there is none. */
  function AppointmentValue(count: nat): (v: string)
    ensures v == "Aucun" <==> count == 0
    ensures count > 0 ==> AllDigits(v) && DigitsValue(v) == count
  {
    if count > 0 then
      NatToStringRoundTrip(count);
      assert !AllDigits("Aucun") by { assert !('0' <= "Aucun"[0] <= '9'); }
      NatToString(count)
    else "Aucun"
  }

  const RevenueSuffixEnd: string := "€ potentiel)"

  /** The card's second line: the date, a space, and the revenue in brackets
      when it is positive; `toFixed` is `toFixed(0)`. */
  function ChangeText(capitalizedDate: string, revenue: real, toFixed: real -> string): (t: string)
    ensures |t| > |capitalizedDate| && t[..|capitalizedDate| + 1] == capitalizedDate + " "
    ensures revenue <= 0.0 ==> t == capitalizedDate + " "
    ensures revenue > 0.0 ==> t == capitalizedDate + " (" + toFixed(revenue) + RevenueSuffixEnd
  {
    var suffix := if revenue > 0.0 then "(" + toFixed(revenue) + RevenueSuffixEnd else "";
    capitalizedDate + " " + suffix
  }

  // ---------------------------------------------------------------------
  // The fetched appointments
  // ---------------------------------------------------------------------

  /** `potential_revenue || 0`. */
  function RevenueOrZero(r: Option<real>): real
  {
    if r.Some? then r.value else 0.0
  }

  /** The potential revenue of every appointment from today on. */
  function PotentialRevenue(data: seq<Option<real>>): real
  {
    Sum(data, RevenueOrZero)
  }

  /** With no negative revenue the total is never negative, so the suffix is
      shown exactly when some appointment carries a positive revenue. */
  lemma {:induction false} SuffixShownIffSomeRevenue(data: seq<Option<real>>)
    requires forall r :: r in data ==> RevenueOrZero(r) >= 0.0
    ensures PotentialRevenue(data) >= 0.0
    ensures PotentialRevenue(data) > 0.0 <==> exists r :: r in data && RevenueOrZero(r) > 0.0
    decreases |data|
  {
    if data != [] {
      assert forall r :: r in data[1..] ==> r in data;
      SuffixShownIffSomeRevenue(data[1..]);
      if exists r :: r in data && RevenueOrZero(r) > 0.0 {
        var r :| r in data && RevenueOrZero(r) > 0.0;
        if r != data[0] {
          assert r in data[1..];
        }
      } else {
        assert RevenueOrZero(data[0]) == 0.0;
      }
    }
  }

  class StatsCard {
    var appointmentCount: nat
    var potentialRevenue: real

    constructor ()
      ensures appointmentCount == 0 && potentialRevenue == 0.0
    {
      appointmentCount, potentialRevenue := 0, 0.0;
    }

    /** The query's rows (one potential revenue per appointment from today
        on) replace both figures; no data keeps them. */
    method OnFetched(data: Option<seq<Option<real>>>)
      modifies this
      ensures data.Some? ==> appointmentCount == |data.value| && potentialRevenue == PotentialRevenue(data.value)
      ensures data.None? ==> appointmentCount == old(appointmentCount) && potentialRevenue == old(potentialRevenue)
    {
      if data.Some? {
        appointmentCount := |data.value|;
        potentialRevenue := PotentialRevenue(data.value);
      }
    }

    /** The card's value and second line. */
    function Shown(capitalizedDate: string, toFixed: real -> string): (string, string)
      reads this
    {
      (AppointmentValue(appointmentCount), ChangeText(capitalizedDate, potentialRevenue, toFixed))
    }
  }
}
