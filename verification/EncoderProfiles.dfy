/** How each degradation tier sets up the Opus encoder. */
module EncoderProfiles {
  import opened Words
  import opened Watchdog
  import opened RegistryModel

  datatype Profile = Profile(bitrateBps: nat, complexity: nat, useVbr: bool, forcePcm16: bool)

  function Baseline(mode: AudioMode): Profile {
    match mode
    case UltraLowLatency => Profile(48000, 0, false, false)
    case LowLatency => Profile(64000, 1, false, false)
    case Balanced => Profile(96000, 2, true, false)
    case HighQuality => Profile(128000, 4, true, false)
  }

  function TierEncoderProfile(tier: Tier, mode: AudioMode): Profile {
    match tier
    case Green => Baseline(mode)
    case Yellow => Profile(Min(Baseline(mode).bitrateBps, 96000), Min(Baseline(mode).complexity, 2), false, false)
    case Red => Profile(64000, 1, false, true)
  }

  /** Degrading asks for no more bits and no more work, except where it turns red in the ultra low latency mode. */
  lemma DegradingCostsLessExactly(better: Tier, worse: Tier, mode: AudioMode)
    requires better.Index() < worse.Index()
    ensures var a, b := TierEncoderProfile(better, mode), TierEncoderProfile(worse, mode);
            b.bitrateBps <= a.bitrateBps && b.complexity <= a.complexity <==>
              !(worse == Red && mode == UltraLowLatency)
    ensures TierEncoderProfile(worse, mode).forcePcm16 <==> worse == Red
  {
    assert better == Green || better == Yellow;
  }
}
