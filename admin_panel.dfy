/** The legacy admin panel's search over the stored bookings: names are
    matched without regard to ASCII case, the date as typed. */
module AdminPanel {
  import opened JsValues
  import opened JsStrings
  import opened JsArrays
  import opened LocalStorage

  /** The filter callback: the lower-cased doctor or patient contains the
      lower-cased term, or the date contains the term itself. */
  predicate Matches(a: BookedAppointment, term: string) {
    || Includes(ToLowerAscii(a.doctor), ToLowerAscii(term))
    || Includes(ToLowerAscii(a.patient), ToLowerAscii(term))
    || Includes(a.date, term)
  }

  function MatchesTerm(term: string): BookedAppointment -> bool {
    a => Matches(a, term)
  }

  /** `filteredAppointments`: the loaded bookings that match, in their stored order. */
  function FilteredAppointments(appointments: seq<BookedAppointment>, term: string): (r: seq<BookedAppointment>)
    ensures IsSubsequence(r, appointments)
    ensures forall k :: 0 <= k < |r| ==> Matches(r[k], term)
    ensures forall i :: 0 <= i < |appointments| && Matches(appointments[i], term) ==> appointments[i] in r
    ensures forall x :: multiset(r)[x] == if Matches(x, term) then multiset(appointments)[x] else 0
  {
    FilterMultiset(appointments, MatchesTerm(term));
    Filter(appointments, MatchesTerm(term))
  }

  /** The bookings the panel loads on mount; a missing key loads none. */
  function Loaded(stored: Option<seq<BookedAppointment>>): (r: seq<BookedAppointment>)
    ensures stored.None? ==> r == []
    ensures stored.Some? ==> r == stored.value
  {
    StoredOrEmpty(stored)
  }

  /** "Total Appointments": the number of bookings shown, never more than are stored. */
  function TotalShown(appointments: seq<BookedAppointment>, term: string): (r: nat)
    ensures r == |FilteredAppointments(appointments, term)| <= |appointments|
  {
    |FilteredAppointments(appointments, term)|
  }

  /** A booking is kept exactly when the term occurs, at some position, in
      the lower-cased doctor, the lower-cased patient or the raw date. */
  lemma MatchesIff(a: BookedAppointment, term: string)
    ensures Matches(a, term) <==>
              || OccursIn(ToLowerAscii(a.doctor), ToLowerAscii(term))
              || OccursIn(ToLowerAscii(a.patient), ToLowerAscii(term))
              || OccursIn(a.date, term)
  {
    IncludesIff(ToLowerAscii(a.doctor), ToLowerAscii(term));
    IncludesIff(ToLowerAscii(a.patient), ToLowerAscii(term));
    IncludesIff(a.date, term);
  }

  /** The initial, empty search shows every stored booking. */
  lemma EmptyTermShowsAll(appointments: seq<BookedAppointment>)
    ensures FilteredAppointments(appointments, "") == appointments
  {
    forall i | 0 <= i < |appointments| ensures MatchesTerm("")(appointments[i]) {
      IncludesEmpty(appointments[i].date);
    }
    FilterKeepsAll(appointments, MatchesTerm(""));
  }

  /** A term and its lower-cased form find the same names. */
  lemma NameSearchIgnoresCase(a: BookedAppointment, term: string)
    ensures Includes(ToLowerAscii(a.doctor), ToLowerAscii(ToLowerAscii(term)))
            == Includes(ToLowerAscii(a.doctor), ToLowerAscii(term))
    ensures Includes(ToLowerAscii(a.patient), ToLowerAscii(ToLowerAscii(term)))
            == Includes(ToLowerAscii(a.patient), ToLowerAscii(term))
  {
    LowerAsciiIdempotent(term);
  }

  /** A letter of the needle that the hay lacks keeps `includes` false. */
  lemma LetterNotInHay(hay: string, needle: string, k: nat)
    requires NoAsciiLetter(hay)
    requires k < |needle| && IsAsciiLetter(needle[k])
    ensures !Includes(hay, needle)
  {
    IncludesIff(hay, needle);
    forall i | OccursAt(hay, needle, i) ensures hay[i + k] == needle[k] {
      assert hay[i..i + |needle|][k] == hay[i + k];
    }
  }

  /** Typing the term in another ASCII case finds the same bookings, as long as
      the date holds no letter (an `<input type="date">` value never does). */
  lemma SearchIgnoresCase(a: BookedAppointment, t1: string, t2: string)
    requires ToLowerAscii(t1) == ToLowerAscii(t2)
    requires NoAsciiLetter(a.date)
    ensures Matches(a, t1) == Matches(a, t2)
  {
    assert |t1| == |t2|;
    if k :| 0 <= k < |t1| && IsAsciiLetter(t1[k]) {
      assert LowerChar(t2[k]) == LowerChar(t1[k]);
      LetterNotInHay(a.date, t1, k);
      LetterNotInHay(a.date, t2, k);
    } else {
      forall i | 0 <= i < |t1| ensures t2[i] == t1[i] {
        assert LowerChar(t2[i]) == LowerChar(t1[i]);
      }
      assert t1 == t2;
    }
  }
}
