/**
 * The equaliser dialog (src/components/equaliser-dialog.tsx): a local copy of ten band
 * gains in decibels and the name of the preset shown in the preset menu. Sliders
 * change one gain, a preset replaces all of them, reset zeroes them, and "Done" hands
 * the local gains to the player.
 */
module Equaliser {
  import opened Strings

  /** The centre frequencies of the ten bands, in hertz. */
  const Bands: seq<nat> := [32, 64, 125, 250, 500, 1000, 2000, 4000, 8000, 16000]

  /** The slider range, in decibels. */
  const MinGain := -12
  const MaxGain := 12

  datatype PresetName = Default | Rock | Pop | Jazz | Classical | BassBoost | VocalBoost

  /** The key of a preset in `PRESETS`; `default` is listed as "Custom" in the menu. */
  function PresetKey(p: PresetName): string {
    match p
    case Default => "default"
    case Rock => "rock"
    case Pop => "pop"
    case Jazz => "jazz"
    case Classical => "classical"
    case BassBoost => "bass-boost"
    case VocalBoost => "vocal-boost"
  }

  /** `PRESETS[name]`. */
  function PresetGains(p: PresetName): seq<int> {
    match p
    case Default => [0, 0, 0, 0, 0, 0, 0, 0, 0, 0]
    case Rock => [5, 3, 1, -2, -1, 2, 4, 5, 6, 7]
    case Pop => [-2, -1, 0, 2, 4, 4, 2, 0, -1, -2]
    case Jazz => [4, 2, 1, 3, -1, -1, 0, 2, 3, 4]
    case Classical => [5, 4, 3, 2, -2, -2, 0, 2, 3, 4]
    case BassBoost => [6, 5, 4, 2, 1, -1, -2, -3, -4, -5]
    case VocalBoost => [-2, -1, 0, 2, 4, 4, 2, 0, -1, -2]
  }

  /** Ten gains, one per band, each a value the sliders can show. */
  predicate IsGainVector(g: seq<int>) {
    |g| == |Bands| && forall i :: 0 <= i < |g| ==> MinGain <= g[i] <= MaxGain
  }

  /** Every preset has one gain per band, inside the slider range. */
  lemma PresetsFitTheSliders(p: PresetName)
    ensures IsGainVector(PresetGains(p))
  {
  }

  /** The preset keys are distinct, so the menu names each preset once. */
  lemma PresetKeysDistinct(p: PresetName, q: PresetName)
    ensures PresetKey(p) == PresetKey(q) ==> p == q
  {
  }

  /**
   * "Pop" and "Vocal Boost" are the same curve: choosing one or the other gives the same
   * gains, and only the menu's label differs.
   */
  lemma PopIsVocalBoost()
    ensures PresetGains(Pop) == PresetGains(VocalBoost) && Pop != VocalBoost
  {
  }

  /** The label under band `index`: the frequency below 1000 Hz, thousands with `k` above, then `Hz`. */
  function BandLabel(index: nat): string
    requires index < |Bands|
  {
    var band := Bands[index];
    (if band < 1000 then NatToString(band) else NatToString(band / 1000) + "k") + "Hz"
  }

  /** The ten labels. */
  lemma BandLabels()
    ensures BandLabel(0) == "32Hz" && BandLabel(4) == "500Hz" && BandLabel(5) == "1kHz" &&
            BandLabel(9) == "16kHz"
  {
    assert NatToString(32) == "32" && NatToString(500) == "500";
    assert NatToString(1) == "1" && NatToString(16) == "16";
  }

  /**
   * Every band of 1000 Hz and above is a whole number of kilohertz, so `band / 1000`
   * prints without a fraction, and the label reads back as the band's frequency.
   */
  lemma BandLabelsAreExact(index: nat)
    requires index < |Bands|
    ensures var band := Bands[index];
      var text := BandLabel(index);
      (band < 1000 ==> text == NatToString(band) + "Hz") &&
      (band >= 1000 ==> band % 1000 == 0 && text == NatToString(band / 1000) + "kHz") &&
      ParseDigits(NatToString(if band < 1000 then band else band / 1000)) * (if band < 1000 then 1 else 1000) == band
  {
    var band := Bands[index];
    ParseNatToString(if band < 1000 then band else band / 1000);
    if band >= 1000 {
      assert NatToString(band / 1000) + "k" + "Hz" == NatToString(band / 1000) + "kHz";
    }
  }

  class EqualiserDialog {
    /** `localSettings`. */
    var localSettings: seq<int>
    /** `activePreset`. */
    var activePreset: PresetName

    predicate Valid()
      reads this
    {
      IsGainVector(localSettings)
    }

    /** The dialog as first rendered, holding the player's gains. */
    constructor (equaliserSettings: seq<int>)
      requires IsGainVector(equaliserSettings)
      ensures localSettings == equaliserSettings && activePreset == Default && Valid()
    {
      localSettings := equaliserSettings;
      activePreset := Default;
    }

    /** The effect run when the dialog opens or the player's gains change: the local copy is replaced. */
    method Resync(equaliserSettings: seq<int>)
      requires IsGainVector(equaliserSettings)
      modifies this
      ensures localSettings == equaliserSettings && activePreset == old(activePreset) && Valid()
    {
      localSettings := equaliserSettings;
    }

    /**
     * `handleSliderChange(index, value)`: band `index` takes the slider's value, the others
     * keep theirs, and the menu falls back to "Custom".
     */
    method SliderChange(index: nat, value: int)
      requires Valid() && index < |Bands| && MinGain <= value <= MaxGain
      modifies this
      ensures |localSettings| == |old(localSettings)| && localSettings[index] == value
      ensures forall i :: 0 <= i < |localSettings| && i != index ==> localSettings[i] == old(localSettings)[i]
      ensures activePreset == Default && Valid()
    {
      var newSettings := new int[|localSettings|](i requires 0 <= i < |localSettings| reads this => localSettings[i]);
      newSettings[index] := value;
      localSettings := newSettings[..];
      activePreset := Default;
    }

    /** `handlePresetChange(name)`: all gains become the preset's and the menu shows it. */
    method PresetChange(p: PresetName)
      requires Valid()
      modifies this
      ensures localSettings == PresetGains(p) && activePreset == p && Valid()
    {
      PresetsFitTheSliders(p);
      localSettings := PresetGains(p);
      activePreset := p;
    }

    /** `handleReset`: ten zeros, and "Custom" in the menu. */
    method Reset()
      requires Valid()
      modifies this
      ensures localSettings == PresetGains(Default) && activePreset == Default && Valid()
      ensures forall i :: 0 <= i < |localSettings| ==> localSettings[i] == 0
    {
      localSettings := PresetGains(Default);
      activePreset := Default;
    }

    /** `handleSaveChanges`: the gains passed to `setEqualiserSettings`, and the dialog closed. */
    method SaveChanges() returns (saved: seq<int>, open: bool)
      requires Valid()
      ensures saved == localSettings && IsGainVector(saved) && !open
    {
      saved, open := localSettings, false;
    }
  }
}
