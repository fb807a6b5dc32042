/**
 * `SystemTime`: the clock every message header and ledger line reads. It
 * holds one static date; while that date is `DateTime.MinValue` the clock
 * reads the machine's clock, otherwise it reads the date set last.
 */
module Clock {
  import opened Basics

  /** The static state of `SystemTime`; one object stands for the static class. */
  class SystemTime {
    var date: DateTime

    /** The static constructor: no custom date. */
    constructor ()
      ensures date == MinValue
      ensures forall ambient: DateTime :: Now(ambient) == ambient
    {
      date := MinValue;
    }

    /**
     * `SystemTime.Now`, where `ambient` is what `DateTime.Now` reads at that
     * moment: the custom date when one is set, else the ambient clock.
     */
    function Now(ambient: DateTime): (d: DateTime)
      reads this
      ensures date != MinValue ==> d == date
      ensures date == MinValue ==> d == ambient
    {
      if date != MinValue then date else ambient
    }

    /**
     * `SystemTime.SetCustomDate`: a date other than MinValue fixes every
     * later read of `Now` to it; MinValue restores the ambient clock.
     */
    method SetCustomDate(custom: DateTime)
      modifies this
      ensures date == custom
      ensures custom != MinValue ==> forall ambient: DateTime :: Now(ambient) == custom
      ensures custom == MinValue ==> forall ambient: DateTime :: Now(ambient) == ambient
    {
      date := custom;
    }
  }

  /** `Now` is never MinValue while the ambient clock is not. */
  lemma NowIsNeverMinValue(clock: SystemTime, ambient: DateTime)
    requires ambient != MinValue
    ensures clock.Now(ambient) != MinValue
  {
  }
}
