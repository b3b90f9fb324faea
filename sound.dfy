/** The four-channel sound controller at 0xC400-0xC40F: each channel has a
    16-bit frequency (low and high byte registers), a 4-bit volume and a
    control byte whose bit 0 starts a tone. */
module Sound {
  import opened Bits

  const SOUND_BASE := 0xC400
  const SOUND_END := 0xC40F
  const CHANNELS := 4

  type Nibble = c: int | 0 <= c < 16

  datatype Channel = Channel(freq: Word, volume: Nibble, control: Byte, phase: int)

  type Channels = s: seq<Channel> | |s| == 4 witness seq(4, _ => Channel(0, 0, 0, 0))

  function Silent(): Channel { Channel(0, 0, 0, 0) }

  /** The channels after `reset`. */
  function ResetState(): Channels { seq(CHANNELS, _ => Silent()) }

  predicate HandlesAddress(address: int)
  {
    SOUND_BASE <= address <= SOUND_END
  }

  /** `(address - SOUND_BASE) >> 2` and `(address - SOUND_BASE) & 3`. */
  function ChannelOf(address: int): int { (address - SOUND_BASE) / 4 }
  function RegisterOf(address: int): int { (address - SOUND_BASE) % 4 }

  function ReadAt(s: Channels, address: int): Byte
  {
    var ch := ChannelOf(address);
    var reg := RegisterOf(address);
    if ch < 0 || ch >= CHANNELS then 0
    else if reg == 0 then Lo8(s[ch].freq)
    else if reg == 1 then HighByte(s[ch].freq)
    else if reg == 2 then s[ch].volume
    else s[ch].control
  }

  /** A register write. The low (high) frequency register replaces the low
      (high) byte of the frequency and keeps the other; the volume keeps
      four bits; the control register keeps eight (and starts a tone when
      bit 0 is set, which only makes sound). */
  function Written(s: Channels, address: int, value: int): Channels
  {
    var ch := ChannelOf(address);
    var reg := RegisterOf(address);
    if ch < 0 || ch >= CHANNELS then s
    else
      var c := s[ch];
      var c' :=
        if reg == 0 then c.(freq := HighByte(c.freq) * 256 + Lo8(value))
        else if reg == 1 then c.(freq := Lo8(value) * 256 + Lo8(c.freq))
        else if reg == 2 then c.(volume := value % 16)
        else c.(control := Lo8(value));
      s[ch := c']
  }

  /** `silence`: clears the enable bit of every channel. */
  function Silenced(s: Channels): Channels
  {
    seq(CHANNELS, i requires 0 <= i < CHANNELS => s[i].(control := s[i].control - s[i].control % 2))
  }

  /** Writing a frequency's low byte and then its high byte sets the whole
      frequency, and both registers read back what was written. */
  lemma {:induction false} FrequencyRoundTrip(s: Channels, ch: nat, lo: int, hi: int)
    requires ch < CHANNELS
    ensures var t := Written(Written(s, SOUND_BASE + 4 * ch, lo), SOUND_BASE + 4 * ch + 1, hi);
      t[ch].freq == Lo8(hi) * 256 + Lo8(lo) &&
      ReadAt(t, SOUND_BASE + 4 * ch) == Lo8(lo) &&
      ReadAt(t, SOUND_BASE + 4 * ch + 1) == Lo8(hi)
  {
    var t1 := Written(s, SOUND_BASE + 4 * ch, lo);
    assert ChannelOf(SOUND_BASE + 4 * ch) == ch && RegisterOf(SOUND_BASE + 4 * ch) == 0;
    assert ChannelOf(SOUND_BASE + 4 * ch + 1) == ch && RegisterOf(SOUND_BASE + 4 * ch + 1) == 1;
    assert Lo8(t1[ch].freq) == Lo8(lo);
    var f := Lo8(hi) * 256 + Lo8(lo);
    assert Lo8(f) == Lo8(lo) && HighByte(f) == Lo8(hi);
  }

  /** One frequency byte register replaces its own byte and keeps the other. */
  lemma FrequencyBytes(s: Channels, ch: nat, value: int)
    requires ch < CHANNELS
    ensures var t := Written(s, SOUND_BASE + 4 * ch, value);
      Lo8(t[ch].freq) == Lo8(value) && HighByte(t[ch].freq) == HighByte(s[ch].freq)
    ensures var t := Written(s, SOUND_BASE + 4 * ch + 1, value);
      HighByte(t[ch].freq) == Lo8(value) && Lo8(t[ch].freq) == Lo8(s[ch].freq)
  {
    assert ChannelOf(SOUND_BASE + 4 * ch) == ch && RegisterOf(SOUND_BASE + 4 * ch) == 0;
    assert ChannelOf(SOUND_BASE + 4 * ch + 1) == ch && RegisterOf(SOUND_BASE + 4 * ch + 1) == 1;
    var lo := HighByte(s[ch].freq) * 256 + Lo8(value);
    assert Lo8(lo) == Lo8(value) && HighByte(lo) == HighByte(s[ch].freq);
    var hi := Lo8(value) * 256 + Lo8(s[ch].freq);
    assert Lo8(hi) == Lo8(s[ch].freq) && HighByte(hi) == Lo8(value);
  }

  /** The volume register keeps the low four bits of what is written and
      the control register the low eight. */
  lemma VolumeAndControl(s: Channels, ch: nat, value: int)
    requires ch < CHANNELS
    ensures ReadAt(Written(s, SOUND_BASE + 4 * ch + 2, value), SOUND_BASE + 4 * ch + 2) == value % 16
    ensures ReadAt(Written(s, SOUND_BASE + 4 * ch + 3, value), SOUND_BASE + 4 * ch + 3) == Lo8(value)
  {
    assert ChannelOf(SOUND_BASE + 4 * ch + 2) == ch && RegisterOf(SOUND_BASE + 4 * ch + 2) == 2;
    assert ChannelOf(SOUND_BASE + 4 * ch + 3) == ch && RegisterOf(SOUND_BASE + 4 * ch + 3) == 3;
  }

  /** An address whose channel number is 4 or more reads 0 and ignores writes. */
  lemma NoFifthChannel(s: Channels, address: int, value: int)
    requires address >= SOUND_BASE + 4 * CHANNELS
    ensures ReadAt(s, address) == 0 && Written(s, address, value) == s
  {
  }

  /** A write touches only the addressed channel. */
  lemma OtherChannelsUntouched(s: Channels, address: int, value: int, ch: nat)
    requires ch < CHANNELS && ch != ChannelOf(address)
    ensures Written(s, address, value)[ch] == s[ch]
  {
  }

  /** After `silence` no channel is enabled, and nothing but the enable
      bits changed. */
  lemma SilenceDisables(s: Channels, ch: nat)
    requires ch < CHANNELS
    ensures Silenced(s)[ch].control % 2 == 0
    ensures Silenced(s)[ch].freq == s[ch].freq && Silenced(s)[ch].volume == s[ch].volume
    ensures s[ch].control % 2 == 0 ==> Silenced(s)[ch] == s[ch]
  {
  }

  class SoundController {
    const channels: array<Channel>

    ghost predicate Valid()
      reads this
    {
      channels.Length == CHANNELS
    }

    function State(): Channels
      requires Valid()
      reads this, channels
    {
      var s: seq<Channel> := channels[..];
      s
    }

    constructor()
      ensures Valid() && fresh(channels)
      ensures State() == ResetState()
    {
      channels := new Channel[CHANNELS](_ => Silent());
      new;
      assert channels[..] == ResetState();
    }

    function Read(address: int): Byte
      requires Valid()
      reads this, channels
    {
      ReadAt(State(), address)
    }

    method Write(address: int, value: int)
      requires Valid()
      modifies channels
      ensures State() == Written(old(State()), address, value)
    {
      var ch := ChannelOf(address);
      var reg := RegisterOf(address);
      if ch < 0 || ch >= CHANNELS {
        return;
      }
      var c := channels[ch];
      if reg == 0 {
        channels[ch] := c.(freq := HighByte(c.freq) * 256 + Lo8(value));
      } else if reg == 1 {
        channels[ch] := c.(freq := Lo8(value) * 256 + Lo8(c.freq));
      } else if reg == 2 {
        channels[ch] := c.(volume := value % 16);
      } else {
        channels[ch] := c.(control := Lo8(value));
      }
    }

    /** Ticking changes nothing. */
    method Tick()
      requires Valid()
      ensures State() == old(State())
    {
    }

    method Reset()
      requires Valid()
      modifies channels
      ensures State() == ResetState()
    {
      for i := 0 to CHANNELS
        invariant forall j :: 0 <= j < i ==> channels[j] == Silent()
      {
        channels[i] := Silent();
      }
    }

    method Silence()
      requires Valid()
      modifies channels
      ensures State() == Silenced(old(State()))
    {
      for i := 0 to CHANNELS
        invariant forall j :: 0 <= j < i ==> channels[j] == old(channels[j]).(control := old(channels[j]).control - old(channels[j]).control % 2)
        invariant forall j :: i <= j < CHANNELS ==> channels[j] == old(channels[j])
      {
        channels[i] := channels[i].(control := channels[i].control - channels[i].control % 2);
      }
    }
  }
}
