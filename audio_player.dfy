/**
 * The AudioPlayer: copies a WAV stream into memory, reads the format fields
 * of its canonical 44-byte header, loads the bytes into a DirectSound
 * secondary buffer and reports the duration, plays and stops that buffer,
 * chooses the output device by name and lists the device names.
 *
 * DirectSound objects are values with a creation number for identity, and
 * every call the player makes on them is recorded in an event log.
 */
module Audio {
  import opened Wrappers
  import opened Bytes
  import opened Guids
  import opened Streams

  // ---------------------------------------------------------------------
  // Little-endian integers (BitConverter on a little-endian machine)
  // ---------------------------------------------------------------------

  function Pow256(n: nat): (p: nat)
    ensures p >= 1
  {
    if n == 0 then 1 else 256 * Pow256(n - 1)
  }

  /** The unsigned value of bytes stored least significant first. */
  function LittleEndianValue(bs: seq<byte>): (v: nat)
    ensures v < Pow256(|bs|)
  {
    if bs == [] then 0 else bs[0] + 256 * LittleEndianValue(bs[1..])
  }

  /** The n bytes that store u least significant first. */
  function LittleEndianBytes(u: nat, n: nat): (bs: seq<byte>)
    requires u < Pow256(n)
    ensures |bs| == n
  {
    if n == 0 then [] else [u % 256] + LittleEndianBytes(u / 256, n - 1)
  }

  lemma {:induction false} LittleEndianRoundTrip(u: nat, n: nat)
    requires u < Pow256(n)
    ensures LittleEndianValue(LittleEndianBytes(u, n)) == u
  {
    if n > 0 {
      var bs := LittleEndianBytes(u, n);
      assert bs[1..] == LittleEndianBytes(u / 256, n - 1);
      LittleEndianRoundTrip(u / 256, n - 1);
    }
  }

  /** Two's complement reading of an n-byte unsigned value. */
  function Signed(u: nat, n: nat): int
    requires n > 0
  {
    if u >= Pow256(n) / 2 then u - Pow256(n) else u
  }

  /** The two's complement encoding of v in n bytes. */
  function SignedBytes(v: int, n: nat): seq<byte>
    requires n > 0 && -(Pow256(n) / 2) <= v < Pow256(n) / 2
  {
    LittleEndianBytes(if v < 0 then v + Pow256(n) else v, n)
  }

  /** BitConverter's two argument errors: the start index is not in the array, or fewer bytes than needed follow it. */
  datatype ConversionError = StartIndexOutOfRange(startIndex: nat) | ArrayTooShort(startIndex: nat)

  /** BitConverter.ToInt16 and ToInt32 (size 2 and 4). */
  function ToInt(value: seq<byte>, startIndex: nat, size: nat): Result<int, ConversionError>
    requires size > 0
  {
    if startIndex >= |value| then Failure(StartIndexOutOfRange(startIndex))
    else if startIndex > |value| - size then Failure(ArrayTooShort(startIndex))
    else Success(Signed(LittleEndianValue(value[startIndex..startIndex + size]), size))
  }

  /** Writing a value and reading it back at the same offset gives the value. */
  lemma ToIntOfSignedBytes(prefix: seq<byte>, v: int, size: nat, suffix: seq<byte>)
    requires size > 0 && -(Pow256(size) / 2) <= v < Pow256(size) / 2
    ensures ToInt(prefix + SignedBytes(v, size) + suffix, |prefix|, size) == Success(v)
  {
    var bs := SignedBytes(v, size);
    var all := prefix + bs + suffix;
    assert all[|prefix|..|prefix| + size] == bs;
    LittleEndianRoundTrip(if v < 0 then v + Pow256(size) else v, size);
  }

  // ---------------------------------------------------------------------
  // GetInfo
  // ---------------------------------------------------------------------

  /** The SharpDX WaveFormat fields the player uses; also the type of PlayItem.WavHead. */
  datatype WaveInfo = WaveInfo(sampleRate: int, bitsPerSample: int, channelCount: int)

  const ChannelsOffset: nat := 22
  const SampleRateOffset: nat := 24
  const BitsPerSampleOffset: nat := 34
  /** Size of the canonical header that Load subtracts from the byte count. */
  const HeaderSize: nat := 44

  /**
   * GetInfo: the channel count (16-bit at 22), the sample rate (32-bit at 24)
   * and the bits per sample (16-bit at 34), read in that order, signed and
   * little-endian. The "RIFF", "WAVE" and "fmt " tags are not checked.
   */
  function GetInfo(bytes: seq<byte>): Result<WaveInfo, ConversionError> {
    var channelCount :- ToInt(bytes, ChannelsOffset, 2);
    var sampleRate :- ToInt(bytes, SampleRateOffset, 4);
    var bitsPerSample :- ToInt(bytes, BitsPerSampleOffset, 2);
    Success(WaveInfo(sampleRate, bitsPerSample, channelCount))
  }

  /** GetInfo succeeds exactly on 36 or more bytes; otherwise the first read that does not fit fails. */
  lemma GetInfoNeeds36Bytes(bytes: seq<byte>)
    ensures GetInfo(bytes).Success? <==> |bytes| >= 36
    ensures |bytes| <= 22 ==> GetInfo(bytes) == Failure(StartIndexOutOfRange(22))
    ensures |bytes| == 23 ==> GetInfo(bytes) == Failure(ArrayTooShort(22))
    ensures |bytes| == 24 ==> GetInfo(bytes) == Failure(StartIndexOutOfRange(24))
    ensures 25 <= |bytes| <= 27 ==> GetInfo(bytes) == Failure(ArrayTooShort(24))
    ensures 28 <= |bytes| <= 34 ==> GetInfo(bytes) == Failure(StartIndexOutOfRange(34))
    ensures |bytes| == 35 ==> GetInfo(bytes) == Failure(ArrayTooShort(34))
  {
  }

  /** Only bytes 22 to 27 and 34 to 35 matter: no tag, size or length beyond 36 is looked at. */
  lemma GetInfoReadsOnlyFormatFields(a: seq<byte>, b: seq<byte>)
    requires |a| >= 36 && |b| >= 36
    requires a[22..28] == b[22..28] && a[34..36] == b[34..36]
    ensures GetInfo(a) == GetInfo(b)
  {
    assert a[22..24] == a[22..28][..2] && b[22..24] == b[22..28][..2];
    assert a[24..28] == a[22..28][2..] && b[24..28] == b[22..28][2..];
  }

  /** The 44-byte canonical PCM header for the given format and data length. */
  function CanonicalHeader(info: WaveInfo, dataLength: nat): (h: seq<byte>)
    requires 0 <= info.channelCount < 0x8000 && 0 <= info.bitsPerSample < 0x8000
    requires 0 <= info.sampleRate < 0x8000_0000
    ensures |h| == HeaderSize
  {
    var byteRate := info.sampleRate * info.channelCount * info.bitsPerSample / 8;
    var blockAlign := info.channelCount * info.bitsPerSample / 8;
    [82, 73, 70, 70]                                                 // "RIFF"
    + LittleEndianBytes((36 + dataLength) % 0x1_0000_0000, 4)
    + [87, 65, 86, 69]                                               // "WAVE"
    + [102, 109, 116, 32]                                            // "fmt "
    + [16, 0, 0, 0]                                                  // format chunk size
    + [1, 0]                                                         // PCM
    + SignedBytes(info.channelCount, 2)                              // offset 22
    + SignedBytes(info.sampleRate, 4)                                // offset 24
    + LittleEndianBytes(byteRate % 0x1_0000_0000, 4)
    + LittleEndianBytes(blockAlign % 0x1_0000, 2)
    + SignedBytes(info.bitsPerSample, 2)                             // offset 34
    + [100, 97, 116, 97]                                             // "data"
    + LittleEndianBytes(dataLength % 0x1_0000_0000, 4)
  }

  /** The three fields GetInfo reads sit at offsets 22, 24 and 34 of the canonical header. */
  lemma CanonicalHeaderFields(info: WaveInfo, dataLength: nat)
    requires 0 <= info.channelCount < 0x8000 && 0 <= info.bitsPerSample < 0x8000
    requires 0 <= info.sampleRate < 0x8000_0000
    ensures CanonicalHeader(info, dataLength)[22..24] == SignedBytes(info.channelCount, 2)
    ensures CanonicalHeader(info, dataLength)[24..28] == SignedBytes(info.sampleRate, 4)
    ensures CanonicalHeader(info, dataLength)[34..36] == SignedBytes(info.bitsPerSample, 2)
  {
  }

  /** A slice of s, cut out and put back, gives s. */
  lemma FieldAt(s: seq<byte>, offset: nat, field: seq<byte>)
    requires offset + |field| <= |s| && s[offset..offset + |field|] == field
    ensures s[..offset] + field + s[offset + |field|..] == s
  {
  }

  /** Reading the header of a canonical WAV file gives back the format it was written with. */
  lemma GetInfoOfCanonicalHeader(info: WaveInfo, samples: seq<byte>)
    requires 0 <= info.channelCount < 0x8000 && 0 <= info.bitsPerSample < 0x8000
    requires 0 <= info.sampleRate < 0x8000_0000
    ensures GetInfo(CanonicalHeader(info, |samples|) + samples) == Success(info)
  {
    var file := CanonicalHeader(info, |samples|) + samples;
    CanonicalHeaderFields(info, |samples|);
    FieldAt(file, 22, SignedBytes(info.channelCount, 2));
    ToIntOfSignedBytes(file[..22], info.channelCount, 2, file[24..]);
    FieldAt(file, 24, SignedBytes(info.sampleRate, 4));
    ToIntOfSignedBytes(file[..24], info.sampleRate, 4, file[28..]);
    FieldAt(file, 34, SignedBytes(info.bitsPerSample, 2));
    ToIntOfSignedBytes(file[..34], info.bitsPerSample, 2, file[36..]);
  }

  // ---------------------------------------------------------------------
  // Duration
  // ---------------------------------------------------------------------

  datatype LoadError = BadHeader(error: ConversionError) | DivideByZero

  /**
   * The duration Load returns, in milliseconds: the bytes after the 44-byte
   * header, times 8, divided by the channel count, the sample rate and the
   * bits per sample in turn, times 1000. A zero divisor is decimal's
   * DivideByZeroException.
   */
  function Duration(byteLength: int, sampleRate: int, bitsPerSample: int, channelCount: int): Result<real, LoadError> {
    if channelCount == 0 || sampleRate == 0 || bitsPerSample == 0 then Failure(DivideByZero)
    else
      var dataLength := byteLength - HeaderSize;
      Success((dataLength as real * 8.0) / channelCount as real / sampleRate as real / bitsPerSample as real * 1000.0)
  }

  /** The same duration as one division by the byte rate: data bits times 1000 over (channels x rate x bits). */
  lemma DurationByByteRate(byteLength: int, sampleRate: int, bitsPerSample: int, channelCount: int)
    requires channelCount != 0 && sampleRate != 0 && bitsPerSample != 0
    ensures Duration(byteLength, sampleRate, bitsPerSample, channelCount)
         == Success(((byteLength - HeaderSize) * 8 * 1000) as real / (channelCount * sampleRate * bitsPerSample) as real)
  {
    var x := (byteLength - HeaderSize) as real * 8.0;
    var c, s, b := channelCount as real, sampleRate as real, bitsPerSample as real;
    assert x / c / s == x / (c * s);
    assert x / (c * s) / b == x / (c * s * b);
    assert x / (c * s * b) * 1000.0 == (x * 1000.0) / (c * s * b);
    assert (channelCount * sampleRate * bitsPerSample) as real == c * s * b;
  }

  /** Data of a whole number of seconds lasts that many thousand milliseconds. */
  lemma DurationOfWholeSeconds(byteLength: int, sampleRate: int, bitsPerSample: int, channelCount: int, seconds: int)
    requires channelCount != 0 && sampleRate != 0 && bitsPerSample != 0
    requires (byteLength - HeaderSize) * 8 == seconds * channelCount * sampleRate * bitsPerSample
    ensures Duration(byteLength, sampleRate, bitsPerSample, channelCount) == Success(seconds as real * 1000.0)
  {
    DurationByByteRate(byteLength, sampleRate, bitsPerSample, channelCount);
    var d := channelCount * sampleRate * bitsPerSample;
    assert d != 0 by {
      assert channelCount * sampleRate != 0;
    }
    assert seconds * channelCount * sampleRate * bitsPerSample == seconds * d;
    var n := (byteLength - HeaderSize) * 8 * 1000;
    assert n == (seconds * 1000) * d;
    assert n as real == (seconds * 1000) as real * d as real;
    assert n as real / d as real == (seconds * 1000) as real;
  }

  /** One second of 44.1 kHz 16-bit stereo: 176400 data bytes give 1000 ms. */
  lemma DurationExample()
    ensures Duration(HeaderSize + 176400, 44100, 16, 2) == Success(1000.0)
  {
    DurationOfWholeSeconds(HeaderSize + 176400, 44100, 16, 2, 1);
  }

  /** Fewer bytes than a header give a negative duration when the format fields are positive. */
  lemma DurationNegativeWhenShort(byteLength: int, sampleRate: int, bitsPerSample: int, channelCount: int)
    requires byteLength < HeaderSize && channelCount > 0 && sampleRate > 0 && bitsPerSample > 0
    ensures Duration(byteLength, sampleRate, bitsPerSample, channelCount).Success?
    ensures Duration(byteLength, sampleRate, bitsPerSample, channelCount).value < 0.0
  {
    DurationByByteRate(byteLength, sampleRate, bitsPerSample, channelCount);
    var n := (byteLength - HeaderSize) * 8 * 1000;
    var d := channelCount * sampleRate * bitsPerSample;
    assert d > 0 by {
      assert channelCount * sampleRate > 0;
    }
    assert n < 0;
    assert n as real / d as real < 0.0;
  }

  // ---------------------------------------------------------------------
  // Devices
  // ---------------------------------------------------------------------

  /** One entry of DirectSound.GetDevices(). */
  datatype DeviceInformation = DeviceInformation(description: string, driverGuid: Guid)

  const DefaultDevice: string := "Default Device"

  function FoldCase(c: char): char {
    if 'A' <= c <= 'Z' then (c as int + 32) as char else c
  }

  predicate EqualsIgnoreCase(a: string, b: string) {
    |a| == |b| && forall i :: 0 <= i < |a| ==> FoldCase(a[i]) == FoldCase(b[i])
  }

  /** string.Compare(description, deviceName, true) == 0; a null name matches no description. */
  predicate NameMatches(description: string, deviceName: Option<string>) {
    deviceName.Some? && EqualsIgnoreCase(description, deviceName.value)
  }

  /** The driver ChangeAudioDevice chooses: that of the last matching device, else Guid.Empty (the default device). */
  function LastMatchingDriver(devices: seq<DeviceInformation>, deviceName: Option<string>): Guid {
    if devices == [] then Empty
    else if NameMatches(devices[|devices| - 1].description, deviceName) then devices[|devices| - 1].driverGuid
    else LastMatchingDriver(devices[..|devices| - 1], deviceName)
  }

  lemma {:induction false} NoMatchingDevice(devices: seq<DeviceInformation>, deviceName: Option<string>)
    requires forall i :: 0 <= i < |devices| ==> !NameMatches(devices[i].description, deviceName)
    ensures LastMatchingDriver(devices, deviceName) == Empty
  {
    if devices != [] {
      var front := devices[..|devices| - 1];
      assert forall i :: 0 <= i < |front| ==> front[i] == devices[i];
      NoMatchingDevice(front, deviceName);
    }
  }

  lemma {:induction false} LastMatchWins(devices: seq<DeviceInformation>, deviceName: Option<string>, i: nat)
    requires i < |devices| && NameMatches(devices[i].description, deviceName)
    requires forall j :: i < j < |devices| ==> !NameMatches(devices[j].description, deviceName)
    ensures LastMatchingDriver(devices, deviceName) == devices[i].driverGuid
  {
    if i < |devices| - 1 {
      var front := devices[..|devices| - 1];
      assert forall j :: 0 <= j < |front| ==> front[j] == devices[j];
      LastMatchWins(front, deviceName, i);
    }
  }

  lemma EqualsIgnoreCaseTransitive(a: string, b: string, c: string)
    requires EqualsIgnoreCase(a, b) && EqualsIgnoreCase(b, c)
    ensures EqualsIgnoreCase(a, c)
  {
  }

  /** Names that differ only in letter case choose the same driver. */
  lemma {:induction false} ChoiceIgnoresCase(devices: seq<DeviceInformation>, n1: string, n2: string)
    requires EqualsIgnoreCase(n1, n2)
    ensures LastMatchingDriver(devices, Some(n1)) == LastMatchingDriver(devices, Some(n2))
  {
    if devices != [] {
      var d := devices[|devices| - 1].description;
      if EqualsIgnoreCase(d, n1) {
        EqualsIgnoreCaseTransitive(d, n1, n2);
      }
      ChoiceIgnoresCase(devices[..|devices| - 1], n1, n2);
    }
  }

  /** The descriptions of the devices that have a driver, in enumeration order. */
  function DriverDescriptions(devices: seq<DeviceInformation>): seq<string> {
    if devices == [] then []
    else (if devices[0].driverGuid == Empty then [] else [devices[0].description]) + DriverDescriptions(devices[1..])
  }

  /** How many devices have a driver. */
  function CountDrivers(devices: seq<DeviceInformation>): nat {
    if devices == [] then 0
    else (if devices[0].driverGuid == Empty then 0 else 1) + CountDrivers(devices[1..])
  }

  /** One name is listed per device that has a driver. */
  lemma {:induction false} DriverDescriptionsLength(devices: seq<DeviceInformation>)
    ensures |DriverDescriptions(devices)| == CountDrivers(devices)
  {
    if devices != [] {
      DriverDescriptionsLength(devices[1..]);
    }
  }

  lemma {:induction false} DriverDescriptionsAppend(a: seq<DeviceInformation>, b: seq<DeviceInformation>)
    ensures DriverDescriptions(a + b) == DriverDescriptions(a) + DriverDescriptions(b)
  {
    if a != [] {
      assert (a + b)[1..] == a[1..] + b;
      DriverDescriptionsAppend(a[1..], b);
    } else {
      assert a + b == b;
    }
  }

  /** A name is listed exactly when some device with a driver has it as its description. */
  lemma {:induction false} DriverDescriptionsMembers(devices: seq<DeviceInformation>, x: string)
    ensures x in DriverDescriptions(devices) <==>
      exists i :: 0 <= i < |devices| && devices[i].driverGuid != Empty && devices[i].description == x
  {
    if devices != [] {
      DriverDescriptionsMembers(devices[1..], x);
      if x in DriverDescriptions(devices[1..]) {
        var i :| 0 <= i < |devices[1..]| && devices[1..][i].driverGuid != Empty && devices[1..][i].description == x;
        assert devices[i + 1] == devices[1..][i];
      }
      if exists i :: 0 <= i < |devices| && devices[i].driverGuid != Empty && devices[i].description == x {
        var i :| 0 <= i < |devices| && devices[i].driverGuid != Empty && devices[i].description == x;
        if i > 0 {
          assert devices[1..][i - 1] == devices[i];
        }
      }
    }
  }

  /** When every device has a driver, every description is listed, in order. */
  lemma {:induction false} DriverDescriptionsAllDrivers(devices: seq<DeviceInformation>)
    requires forall i :: 0 <= i < |devices| ==> devices[i].driverGuid != Empty
    ensures DriverDescriptions(devices) == seq(|devices|, i requires 0 <= i < |devices| => devices[i].description)
  {
    if devices != [] {
      DriverDescriptionsAllDrivers(devices[1..]);
    }
  }

  /** GetDeviceNames: "Default Device" first, then the descriptions of the devices that have a driver. */
  method GetDeviceNames(devices: seq<DeviceInformation>) returns (names: seq<string>)
    ensures names == [DefaultDevice] + DriverDescriptions(devices)
    ensures |names| == 1 + CountDrivers(devices)
  {
    names := [DefaultDevice];
    var i := 0;
    while i < |devices|
      invariant 0 <= i <= |devices|
      invariant names == [DefaultDevice] + DriverDescriptions(devices[..i])
    {
      var device := devices[i];
      DriverDescriptionsAppend(devices[..i], [device]);
      assert devices[..i + 1] == devices[..i] + [device];
      i := i + 1;
      if device.driverGuid == Empty {
        continue;
      }
      names := names + [device.description];
    }
    assert devices[..i] == devices;
    DriverDescriptionsLength(devices);
  }

  // ---------------------------------------------------------------------
  // The player
  // ---------------------------------------------------------------------

  datatype PlayFlags = PlayFlagsNone
  datatype CooperativeLevel = Normal

  /** A DirectSound device object; id is its creation number. */
  datatype SoundDevice = SoundDevice(id: nat, driverGuid: Guid)

  /** A SecondarySoundBuffer; id is its creation number. */
  datatype SoundBuffer = SoundBuffer(id: nat, format: WaveInfo, bufferBytes: nat)

  /** A call the player makes on DirectSound, or an event it raises. */
  datatype PlayerEvent =
    | DeviceCreated(device: SoundDevice)
    | SpeakerConfigurationRead(device: SoundDevice)
    | CooperativeLevelSet(device: SoundDevice, window: int, level: CooperativeLevel)
    | DeviceDisposed(device: SoundDevice)
    | BufferCreated(buffer: SoundBuffer, owner: Option<SoundDevice>)
    | BufferWritten(buffer: SoundBuffer, data: seq<byte>)
    | BeforePlayRaised
    | BufferPlayed(buffer: SoundBuffer, playPosition: int, flags: PlayFlags)
    | BufferStopped(buffer: SoundBuffer)
    | BufferDisposed(buffer: SoundBuffer)

  class AudioPlayer {
    /** The window handle DirectSound cooperates with. */
    var handle: int
    var applicationBuffer: Option<SoundBuffer>
    var applicationDevice: Option<SoundDevice>
    var currentDeviceName: Option<string>
    var isDisposing: bool
    /** Whether BeforePlay has any handler. */
    var hasBeforePlayListener: bool
    /** How many DirectSound objects the player has created. */
    var created: nat
    var events: seq<PlayerEvent>

    constructor (windowHandle: int)
      ensures handle == windowHandle
      ensures applicationBuffer == None && applicationDevice == None && currentDeviceName == None
      ensures !isDisposing && !hasBeforePlayListener && created == 0 && events == []
    {
      handle := windowHandle;
      applicationBuffer, applicationDevice, currentDeviceName := None, None, None;
      isDisposing, hasBeforePlayListener := false, false;
      created, events := 0, [];
    }

    /** GetBytes: rewinds the stream and copies all of it, 4096 bytes at a time. */
    method GetBytes(stream: Stream) returns (bytes: seq<byte>)
      requires !stream.closed
      modifies stream`position
      ensures bytes == stream.data
      ensures stream.position == |stream.data|
    {
      stream.SetPosition(0);
      var ms: seq<byte> := [];
      var bufSize := 4096;
      var buf := new byte[bufSize];
      while true
        invariant stream.position <= |stream.data|
        invariant ms == stream.data[..stream.position]
        decreases |stream.data| - stream.position
      {
        var bytesRead := stream.Read(buf, 0, bufSize);
        if bytesRead == 0 {
          break;
        }
        ms := ms + buf[..bytesRead];
      }
      bytes := ms;
    }

    /**
     * Load(bytes, sampleRate, bitsPerSample, channelCount): a new buffer
     * sized to the bytes, on the current device, holding the bytes; it
     * replaces the previous buffer without releasing it. Then the duration.
     */
    method Load(bytes: seq<byte>, sampleRate: int, bitsPerSample: int, channelCount: int)
      returns (duration: Result<real, LoadError>)
      modifies this`applicationBuffer, this`events, this`created
      ensures var buffer := SoundBuffer(old(created), WaveInfo(sampleRate, bitsPerSample, channelCount), |bytes|);
        && applicationBuffer == Some(buffer)
        && created == old(created) + 1
        && events == old(events) + [BufferCreated(buffer, applicationDevice), BufferWritten(buffer, bytes)]
      ensures duration == Duration(|bytes|, sampleRate, bitsPerSample, channelCount)
    {
      var buffer := SoundBuffer(created, WaveInfo(sampleRate, bitsPerSample, channelCount), |bytes|);
      created := created + 1;
      applicationBuffer := Some(buffer);
      events := events + [BufferCreated(buffer, applicationDevice)];
      events := events + [BufferWritten(buffer, bytes)];
      duration := Duration(|bytes|, sampleRate, bitsPerSample, channelCount);
    }

    /**
     * Load(stream): the stream's bytes loaded with the format GetInfo reads
     * from those same bytes. A header too short to read fails before
     * anything is loaded.
     */
    method LoadStream(stream: Stream) returns (duration: Result<real, LoadError>)
      requires !stream.closed
      modifies stream`position, this`applicationBuffer, this`events, this`created
      ensures stream.position == |stream.data|
      ensures GetInfo(stream.data).Failure? ==>
        && duration == Failure(BadHeader(GetInfo(stream.data).error))
        && applicationBuffer == old(applicationBuffer) && events == old(events) && created == old(created)
      ensures GetInfo(stream.data).Success? ==>
        var info := GetInfo(stream.data).value;
        var buffer := SoundBuffer(old(created), info, |stream.data|);
        && applicationBuffer == Some(buffer)
        && created == old(created) + 1
        && events == old(events) + [BufferCreated(buffer, applicationDevice), BufferWritten(buffer, stream.data)]
        && duration == Duration(|stream.data|, info.sampleRate, info.bitsPerSample, info.channelCount)
    {
      var bytes := GetBytes(stream);
      var info := GetInfo(bytes);
      if info.Failure? {
        return Failure(BadHeader(info.error));
      }
      duration := Load(bytes, info.value.sampleRate, info.value.bitsPerSample, info.value.channelCount);
    }

    /** Play: nothing without a buffer; else BeforePlay (if handled), then play from position 0 without looping. */
    method Play()
      modifies this`events
      ensures applicationBuffer.None? ==> events == old(events)
      ensures applicationBuffer.Some? ==>
        events == old(events)
          + (if hasBeforePlayListener then [BeforePlayRaised] else [])
          + [BufferPlayed(applicationBuffer.value, 0, PlayFlagsNone)]
    {
      var ab := applicationBuffer;
      if ab.None? {
        return;
      }
      if hasBeforePlayListener {
        events := events + [BeforePlayRaised];
      }
      events := events + [BufferPlayed(ab.value, 0, PlayFlagsNone)];
    }

    /** Stop: nothing without a buffer; else only the buffer is stopped. */
    method Stop()
      modifies this`events
      ensures applicationBuffer.None? ==> events == old(events)
      ensures applicationBuffer.Some? ==> events == old(events) + [BufferStopped(applicationBuffer.value)]
    {
      var ab := applicationBuffer;
      if ab.Some? {
        events := events + [BufferStopped(ab.value)];
      }
    }

    /**
     * ChangeAudioDevice(deviceName), with playbackDevices the result of
     * DirectSound.GetDevices(). Nothing happens when the name is the current
     * one and a device is open. Otherwise the previous device is disposed,
     * a device is created for the last device whose description matches the
     * name case-insensitively (Guid.Empty, the default device, if none),
     * its speaker configuration is read, it cooperates with the window at
     * Normal level, and the name becomes current.
     */
    method ChangeAudioDevice(deviceName: Option<string>, playbackDevices: seq<DeviceInformation>)
      modifies this`applicationDevice, this`currentDeviceName, this`events, this`created
      ensures old(currentDeviceName) == deviceName && old(applicationDevice).Some? ==>
        && applicationDevice == old(applicationDevice) && currentDeviceName == old(currentDeviceName)
        && events == old(events) && created == old(created)
      ensures !(old(currentDeviceName) == deviceName && old(applicationDevice).Some?) ==>
        var device := SoundDevice(old(created), LastMatchingDriver(playbackDevices, deviceName));
        && applicationDevice == Some(device)
        && currentDeviceName == deviceName
        && created == old(created) + 1
        && events == old(events)
             + (if old(applicationDevice).Some? then [DeviceDisposed(old(applicationDevice).value)] else [])
             + [DeviceCreated(device), SpeakerConfigurationRead(device), CooperativeLevelSet(device, handle, Normal)]
    {
      if currentDeviceName == deviceName && applicationDevice.Some? {
        return;
      }
      var driverGuid := Empty;
      var i := 0;
      while i < |playbackDevices|
        invariant 0 <= i <= |playbackDevices|
        invariant driverGuid == LastMatchingDriver(playbackDevices[..i], deviceName)
      {
        var device := playbackDevices[i];
        assert playbackDevices[..i + 1][..i] == playbackDevices[..i];
        if NameMatches(device.description, deviceName) {
          driverGuid := device.driverGuid;
        }
        i := i + 1;
      }
      assert playbackDevices[..i] == playbackDevices;
      if applicationDevice.Some? {
        events := events + [DeviceDisposed(applicationDevice.value)];
        applicationDevice := None;
      }
      var device := SoundDevice(created, driverGuid);
      created := created + 1;
      applicationDevice := Some(device);
      events := events + [DeviceCreated(device)];
      events := events + [SpeakerConfigurationRead(device)];
      events := events + [CooperativeLevelSet(device, handle, Normal)];
      currentDeviceName := deviceName;
    }

    /**
     * Dispose: the first call disposes the device and the buffer (those
     * that exist) and clears the window handle; later calls do nothing.
     */
    method Dispose()
      modifies this`isDisposing, this`handle, this`events
      ensures isDisposing
      ensures old(isDisposing) ==> handle == old(handle) && events == old(events)
      ensures !old(isDisposing) ==>
        && handle == 0
        && events == old(events)
             + (if applicationDevice.Some? then [DeviceDisposed(applicationDevice.value)] else [])
             + (if applicationBuffer.Some? then [BufferDisposed(applicationBuffer.value)] else [])
    {
      if isDisposing {
        return;
      }
      isDisposing := true;
      if applicationDevice.Some? {
        events := events + [DeviceDisposed(applicationDevice.value)];
      }
      if applicationBuffer.Some? {
        events := events + [BufferDisposed(applicationBuffer.value)];
      }
      handle := 0;
    }
  }

  /** Disposing twice releases the device and the buffer once. */
  method DisposeTwice(windowHandle: int, bytes: seq<byte>, devices: seq<DeviceInformation>)
    returns (first: seq<PlayerEvent>, second: seq<PlayerEvent>)
    ensures |first| == 2 && first[0].DeviceDisposed? && first[1].BufferDisposed?
    ensures second == []
  {
    var player := new AudioPlayer(windowHandle);
    player.ChangeAudioDevice(None, devices);
    var _ := player.Load(bytes, 44100, 16, 2);
    var mark := |player.events|;
    player.Dispose();
    first := player.events[mark..];
    mark := |player.events|;
    player.Dispose();
    second := player.events[mark..];
  }
}
