/**
 * The settings holder of the application: the chat webhook URL and the
 * latency compensation, both written through to local storage, and a
 * suspend flag kept in memory only.
 */
module Settings {
  import opened Wrappers
  import opened Strings

  /** The compensation a fresh settings holder starts with (the game machine's own default is 20). */
  const InitialLatencyCompensation: int := 250

  /**
   * The browser's local storage, reduced to the two slots the settings read
   * and write. `None` is a slot with no item in it, which reads back as `null`.
   */
  class Storage {
    var webhook: Option<string>
    var latencyCompensation: Option<int>

    constructor (webhook: Option<string>, latencyCompensation: Option<int>)
      ensures this.webhook == webhook && this.latencyCompensation == latencyCompensation
    {
      this.webhook := webhook;
      this.latencyCompensation := latencyCompensation;
    }
  }

  /** The larger of two integers, as `Math.max` on whole numbers. */
  function Max(a: int, b: int): (r: int)
    ensures r == a || r == b
    ensures a <= r && b <= r
  {
    if a < b then b else a
  }

  /** JavaScript truthiness of a string read from storage: present and not empty. */
  predicate Truthy(s: Option<string>)
  {
    s.Some? && s.value != ""
  }

  /** What the writers below ever put in storage: a trimmed, non-empty URL and a compensation of at least 0. */
  ghost predicate StorageWellFormed(st: Storage)
    reads st
  {
    (st.webhook.Some? ==> st.webhook.value != "" && IsTrimmed(st.webhook.value))
    && (st.latencyCompensation.Some? ==> 0 <= st.latencyCompensation.value)
  }

  class SettingsHolder {
    var slackWebhookUrl: string
    var latencyCompensation: int
    var suspendSlackPosting: bool
    const storage: Storage

    /**
     * The held URL is always trimmed and the compensation never negative, as
     * long as nothing but these methods has written the storage.
     */
    ghost predicate Valid()
      reads this, storage
    {
      IsTrimmed(slackWebhookUrl)
      && 0 <= latencyCompensation
      && StorageWellFormed(storage)
    }

    /** `createSettings`: nothing is read from storage until `LoadPersistedSettings` runs. */
    constructor (storage: Storage)
      ensures this.storage == storage
      ensures slackWebhookUrl == "" && latencyCompensation == InitialLatencyCompensation && !suspendSlackPosting
      ensures StorageWellFormed(storage) ==> Valid()
    {
      slackWebhookUrl := "";
      latencyCompensation := InitialLatencyCompensation;
      suspendSlackPosting := false;
      this.storage := storage;
    }

    /** Overwrite each persisted field only when storage holds a usable value for it. */
    method LoadPersistedSettings()
      modifies this`slackWebhookUrl, this`latencyCompensation
      ensures slackWebhookUrl == if Truthy(storage.webhook) then storage.webhook.value else old(slackWebhookUrl)
      ensures latencyCompensation ==
        if storage.latencyCompensation.Some? then storage.latencyCompensation.value else old(latencyCompensation)
      ensures old(Valid()) ==> Valid()
    {
      var savedWebhook := storage.webhook;
      if Truthy(savedWebhook) {
        slackWebhookUrl := savedWebhook.value;
      }
      var savedLatencyCompensation := storage.latencyCompensation;
      if savedLatencyCompensation.Some? {
        latencyCompensation := savedLatencyCompensation.value;
      }
    }

    /**
     * Store and hold the trimmed URL, unless trimming leaves nothing, in which
     * case nothing changes and the answer is false.
     */
    method SaveWebhook(url: string) returns (saved: bool)
      modifies this`slackWebhookUrl, storage`webhook
      ensures saved <==> !AllWhitespace(url)
      ensures saved ==> slackWebhookUrl == Trim(url) && storage.webhook == Some(Trim(url))
      ensures !saved ==> slackWebhookUrl == old(slackWebhookUrl) && storage.webhook == old(storage.webhook)
      ensures old(Valid()) ==> Valid()
    {
      TrimEmptyIff(url);
      var trimmedUrl := Trim(url);
      if trimmedUrl != "" {
        TrimmedIff(url);
        storage.webhook := Some(trimmedUrl);
        slackWebhookUrl := trimmedUrl;
        saved := true;
      } else {
        saved := false;
      }
    }

    /** Remove the stored URL and forget the held one. */
    method ClearWebhook()
      modifies this`slackWebhookUrl, storage`webhook
      ensures slackWebhookUrl == "" && storage.webhook == None
      ensures old(Valid()) ==> Valid()
    {
      storage.webhook := None;
      slackWebhookUrl := "";
    }

    /** Hold and store the compensation, raised to 0 when negative; it always succeeds. */
    method SaveLatencyCompensation(value: int) returns (saved: bool)
      modifies this`latencyCompensation, storage`latencyCompensation
      ensures saved
      ensures latencyCompensation == Max(0, value) && 0 <= latencyCompensation
      ensures storage.latencyCompensation == Some(latencyCompensation)
      ensures old(Valid()) ==> Valid()
    {
      var numValue := Max(0, value);
      storage.latencyCompensation := Some(numValue);
      latencyCompensation := numValue;
      saved := true;
    }

    method ToggleSuspendSlackPosting()
      modifies this`suspendSlackPosting
      ensures suspendSlackPosting == !old(suspendSlackPosting)
      ensures old(Valid()) ==> Valid()
    {
      suspendSlackPosting := !suspendSlackPosting;
    }

    method SetSuspendSlackPosting(value: bool)
      modifies this`suspendSlackPosting
      ensures suspendSlackPosting == value
      ensures old(Valid()) ==> Valid()
    {
      suspendSlackPosting := value;
    }
  }

  /** Clearing a second time leaves the same state as clearing once. */
  method ClearWebhookTwice(s: SettingsHolder)
    modifies s, s.storage
    ensures s.slackWebhookUrl == "" && s.storage.webhook == None
    ensures s.latencyCompensation == old(s.latencyCompensation) && s.suspendSlackPosting == old(s.suspendSlackPosting)
    ensures s.storage.latencyCompensation == old(s.storage.latencyCompensation)
  {
    s.ClearWebhook();
    var url, stored := s.slackWebhookUrl, s.storage.webhook;
    s.ClearWebhook();
    assert s.slackWebhookUrl == url && s.storage.webhook == stored;
  }

  /** Two toggles restore the flag and touch nothing persisted. */
  method ToggleTwice(s: SettingsHolder)
    modifies s
    ensures s.suspendSlackPosting == old(s.suspendSlackPosting)
    ensures s.slackWebhookUrl == old(s.slackWebhookUrl) && s.latencyCompensation == old(s.latencyCompensation)
  {
    s.ToggleSuspendSlackPosting();
    s.ToggleSuspendSlackPosting();
  }

  /**
   * What survives a reload: a holder created afresh over the same storage
   * and loaded holds the URL and the compensation that were saved, and the
   * suspend flag starts over as false.
   */
  method SaveAndReload(s: SettingsHolder, url: string, latency: int) returns (reloaded: SettingsHolder)
    modifies s, s.storage
    ensures reloaded.storage == s.storage
    ensures !AllWhitespace(url) ==> reloaded.slackWebhookUrl == Trim(url)
    ensures reloaded.latencyCompensation == Max(0, latency)
    ensures !reloaded.suspendSlackPosting
  {
    var savedUrl := s.SaveWebhook(url);
    ghost var stored := s.storage.webhook;
    assert !AllWhitespace(url) ==> stored == Some(Trim(url));
    var savedLatency := s.SaveLatencyCompensation(latency);
    assert s.storage.webhook == stored;
    reloaded := new SettingsHolder(s.storage);
    assert reloaded.storage.webhook == stored && reloaded.storage.latencyCompensation == Some(Max(0, latency));
    reloaded.LoadPersistedSettings();
  }
}
