/**
 * The PlayItem object: a queued utterance whose properties raise change
 * notifications, whose status is driven by a one-shot timer from Playing to
 * Played, and whose disposal silences it.
 *
 * Notifications are recorded in a log instead of being delivered; a
 * notification marshalled through the owning ISynchronizeInvoke is marked
 * as such. A timer elapsing is an explicit call naming the timer.
 */
module PlayItems {
  import opened Wrappers
  import opened Bytes
  import opened Guids
  import opened CachePath
  import opened Streams
  import Audio

  /** JobStatusType; Unset stands for the enumeration's default value. */
  datatype JobStatusType = Unset | Playing | Played


  /** One PropertyChanged event: the property's name, and whether it was posted through the parent's BeginInvoke. */
  datatype Notification = PropertyChanged(propertyName: string, marshalled: bool)

  /** A System.Timers.Timer created by StartPlayTimer. */
  datatype PlayTimer = PlayTimer(interval: int, autoReset: bool, enabled: bool)

  class PlayItem {
    /** Whether the item was built with a parent (ISynchronizeInvoke) to marshal notifications through. */
    const hasParent: bool
    /** Whether PropertyChanged has any handler. */
    var hasListener: bool
    /** Every notification raised so far, in order. */
    var notifications: seq<Notification>

    var game: string
    var name: string
    var gender: string
    var effect: string
    /** Plain auto-properties: setting them raises nothing. */
    var playerName: string
    var playerNameChanged: string
    var playerClass: string
    var isComment: bool
    var text: string
    var group: string
    var xml: string
    var wavHead: Option<Audio.WaveInfo>
    var wavData: Option<seq<byte>>
    var streamData: Stream?
    var duration: int
    var status: JobStatusType

    /** Every timer this item has created, in creation order. */
    var timers: seq<PlayTimer>
    /** The timer the playTimer field refers to, by its index in timers. */
    var playTimer: Option<nat>
    var isDisposing: bool

    /** playTimer names a created timer, and every timer is one-shot (AutoReset off). */
    ghost predicate Valid()
      reads this
    {
      && (playTimer.Some? ==> playTimer.value < |timers|)
      && forall i :: 0 <= i < |timers| ==> !timers[i].autoReset
    }

    /** The fields GetUniqueFilePath reads. */
    function Fields(): SpeechFields
      reads this
    {
      SpeechFields(game, name, gender, effect, text, group, xml, playerName, playerNameChanged, playerClass)
    }

    function GetUniqueFilePath(generalize: bool, h: Helpers): string
      reads this
    {
      UniqueFilePath(Fields(), generalize, h)
    }

    function GetGeneralizedText(): string
      reads this
    {
      GeneralizedText(Fields())
    }

    /** What NotifyPropertyChanged(propertyName) raises in the current state. */
    function Emitted(propertyName: string): seq<Notification>
      reads this
    {
      if isDisposing || !hasListener then [] else [PropertyChanged(propertyName, hasParent)]
    }

    constructor (parent: bool)
      ensures Valid()
      ensures hasParent == parent && !hasListener && notifications == []
      ensures Fields() == SpeechFields("", "", "", "", "", "", "", "", "", "")
      ensures !isComment && wavHead == None && wavData == None && streamData == null
      ensures duration == 0 && status == Unset
      ensures timers == [] && playTimer == None && !isDisposing
    {
      hasParent := parent;
      hasListener := false;
      notifications := [];
      game, name, gender, effect := "", "", "", "";
      playerName, playerNameChanged, playerClass := "", "", "";
      isComment := false;
      text, group, xml := "", "", "";
      wavHead, wavData, streamData := None, None, null;
      duration, status := 0, Unset;
      timers, playTimer := [], None;
      isDisposing := false;
    }

    /** Nothing once disposal has begun or when nobody listens; otherwise one event with the property's name. */
    method NotifyPropertyChanged(propertyName: string)
      modifies this`notifications
      ensures notifications == old(notifications) + Emitted(propertyName)
    {
      if isDisposing {
        return;
      }
      if !hasListener {
        return;
      }
      notifications := notifications + [PropertyChanged(propertyName, hasParent)];
    }

    method SetGame(value: string)
      modifies this`game, this`notifications
      ensures game == value && notifications == old(notifications) + Emitted("Game")
    {
      game := value;
      NotifyPropertyChanged("Game");
    }

    method SetName(value: string)
      modifies this`name, this`notifications
      ensures name == value && notifications == old(notifications) + Emitted("Name")
    {
      name := value;
      NotifyPropertyChanged("Name");
    }

    method SetGender(value: string)
      modifies this`gender, this`notifications
      ensures gender == value && notifications == old(notifications) + Emitted("Gender")
    {
      gender := value;
      NotifyPropertyChanged("Gender");
    }

    method SetEffect(value: string)
      modifies this`effect, this`notifications
      ensures effect == value && notifications == old(notifications) + Emitted("Effect")
    {
      effect := value;
      NotifyPropertyChanged("Effect");
    }

    method SetIsComment(value: bool)
      modifies this`isComment, this`notifications
      ensures isComment == value && notifications == old(notifications) + Emitted("IsComment")
    {
      isComment := value;
      NotifyPropertyChanged("IsComment");
    }

    method SetText(value: string)
      modifies this`text, this`notifications
      ensures text == value && notifications == old(notifications) + Emitted("Text")
    {
      text := value;
      NotifyPropertyChanged("Text");
    }

    method SetGroup(value: string)
      modifies this`group, this`notifications
      ensures group == value && notifications == old(notifications) + Emitted("Group")
    {
      group := value;
      NotifyPropertyChanged("Group");
    }

    method SetXml(value: string)
      modifies this`xml, this`notifications
      ensures xml == value && notifications == old(notifications) + Emitted("Xml")
    {
      xml := value;
      NotifyPropertyChanged("Xml");
    }

    method SetWavHead(value: Option<Audio.WaveInfo>)
      modifies this`wavHead, this`notifications
      ensures wavHead == value && notifications == old(notifications) + Emitted("WavHead")
    {
      wavHead := value;
      NotifyPropertyChanged("WavHead");
    }

    method SetWavData(value: Option<seq<byte>>)
      modifies this`wavData, this`notifications
      ensures wavData == value && notifications == old(notifications) + Emitted("WavData")
    {
      wavData := value;
      NotifyPropertyChanged("WavData");
    }

    method SetStreamData(value: Stream?)
      modifies this`streamData, this`notifications
      ensures streamData == value && notifications == old(notifications) + Emitted("StreamData")
    {
      streamData := value;
      NotifyPropertyChanged("StreamData");
    }

    method SetDuration(value: int)
      modifies this`duration, this`notifications
      ensures duration == value && notifications == old(notifications) + Emitted("Duration")
    {
      duration := value;
      NotifyPropertyChanged("Duration");
    }

    method SetStatus(value: JobStatusType)
      modifies this`status, this`notifications
      ensures status == value && notifications == old(notifications) + Emitted("Status")
    {
      status := value;
      NotifyPropertyChanged("Status");
    }

    /**
     * Once disposal has begun, nothing happens. Otherwise the status becomes
     * Playing, "Status" is raised, and a new one-shot timer of Duration
     * milliseconds is started; a timer started earlier is not stopped.
     */
    method StartPlayTimer()
      requires Valid()
      modifies this`status, this`notifications, this`timers, this`playTimer
      ensures Valid()
      ensures old(isDisposing) ==>
        status == old(status) && notifications == old(notifications)
        && timers == old(timers) && playTimer == old(playTimer)
      ensures !old(isDisposing) ==>
        && status == Playing
        && notifications == old(notifications) + Emitted("Status")
        && timers == old(timers) + [PlayTimer(duration, false, true)]
        && playTimer == Some(|old(timers)|)
    {
      if isDisposing {
        return;
      }
      status := Playing;
      NotifyPropertyChanged("Status");
      timers := timers + [PlayTimer(duration, false, true)];
      playTimer := Some(|timers| - 1);
    }

    /**
     * Timer number k elapses. A timer with AutoReset off is disabled before
     * its Elapsed handler runs; the handler sets Played and raises "Status"
     * (silenced if disposal has begun).
     */
    method PlayTimerElapsed(k: nat)
      requires Valid() && k < |timers| && timers[k].enabled
      modifies this`status, this`notifications, this`timers
      ensures Valid()
      ensures timers == old(timers)[k := old(timers)[k].(enabled := false)]
      ensures status == Played
      ensures notifications == old(notifications) + Emitted("Status")
    {
      timers := timers[k := timers[k].(enabled := timers[k].autoReset)];
      status := Played;
      NotifyPropertyChanged("Status");
    }

    /**
     * Dispose: marks the item as disposing, disposes and drops the current
     * timer, and closes and drops StreamData. Nothing is raised: the flag is
     * set first. A second call only finds nothing left to release.
     */
    method Dispose()
      requires Valid()
      modifies this`isDisposing, this`timers, this`playTimer, this`streamData, this`notifications, streamData
      ensures Valid()
      ensures isDisposing && playTimer == None && streamData == null
      ensures old(playTimer).Some? ==>
        timers == old(timers)[old(playTimer).value := old(timers)[old(playTimer).value].(enabled := false)]
      ensures old(playTimer).None? ==> timers == old(timers)
      ensures old(streamData) != null ==>
        && old(streamData).closed
        && old(streamData).data == old(streamData.data)
        && old(streamData).position == old(streamData.position)
      ensures notifications == old(notifications)
    {
      isDisposing := true;
      if playTimer.Some? {
        var k := playTimer.value;
        timers := timers[k := timers[k].(enabled := false)];
        playTimer := None;
      }
      if streamData != null {
        streamData.Close();
        SetStreamData(null);
      }
    }
  }

  /**
   * A run of the status machine: after StartPlayTimer and the elapse of its
   * timer, a listener has seen "Status" twice and the item is Played.
   */
  method PlayCycle(duration: int) returns (seen: seq<Notification>, final: JobStatusType)
    requires duration > 0
    ensures seen == [PropertyChanged("Status", false), PropertyChanged("Status", false)]
    ensures final == Played
  {
    var item := new PlayItem(false);
    item.hasListener := true;
    item.SetDuration(duration);
    var before := item.notifications;
    item.StartPlayTimer();
    var k := item.playTimer.value;
    item.PlayTimerElapsed(k);
    seen := item.notifications[|before|..];
    final := item.status;
  }

  /**
   * Dispose while a timer is armed: the current timer can no longer elapse,
   * and a timer left armed by an earlier StartPlayTimer may still set Played
   * but raises nothing.
   */
  method DisposeSilencesTimers(duration: int) returns (currentArmed: bool, raised: seq<Notification>, final: JobStatusType)
    requires duration > 0
    ensures !currentArmed
    ensures raised == []
    ensures final == Played
  {
    var item := new PlayItem(true);
    item.hasListener := true;
    item.SetDuration(duration);
    item.StartPlayTimer();
    item.StartPlayTimer();
    var current := item.playTimer.value;
    item.Dispose();
    currentArmed := item.timers[current].enabled;
    var before := item.notifications;
    item.PlayTimerElapsed(0);
    raised := item.notifications[|before|..];
    final := item.status;
  }

  /** After Dispose, StartPlayTimer and a second Dispose change nothing observable. */
  method DisposedItemIsInert() returns (raised: seq<Notification>, status: JobStatusType, timerCount: nat)
    ensures raised == [] && status == Unset && timerCount == 0
  {
    var item := new PlayItem(false);
    item.hasListener := true;
    item.Dispose();
    var before := item.notifications;
    item.StartPlayTimer();
    item.Dispose();
    raised := item.notifications[|before|..];
    status := item.status;
    timerCount := |item.timers|;
  }
}
