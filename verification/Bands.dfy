/** The 0..100 scale shared by the wallet and transaction scores. */
module Bands {
  import opened Prelude

  datatype Band = LOW | MEDIUM | HIGH | CRITICAL

  datatype Quality = QualityLow | QualityMedium | QualityHigh

  function Clamped(raw: int): nat {
    Clamp(raw, 0, 100)
  }

  function BandOf(score: nat): Band {
    if score <= 24 then LOW else if score <= 49 then MEDIUM else if score <= 74 then HIGH else CRITICAL
  }

  function FlagIf<F>(raised: bool, f: F): seq<F> {
    if raised then [f] else []
  }
}
