/**
  The persisted settings store. Only the provider choice and the scan
  counter can change; `isPro` and `maxFreeScans` keep their initial values.
*/
module SettingsStore {
  import opened Models

  class Store {
    var aiProvider: AIProviderType
    var isPro: bool
    var scansUsed: int
    var maxFreeScans: int

    function Settings(): AppSettings
      reads this
    {
      AppSettings(aiProvider, isPro, scansUsed, maxFreeScans)
    }

    constructor ()
      ensures Settings() == DEFAULT_SETTINGS
    {
      aiProvider, isPro, scansUsed, maxFreeScans :=
        DEFAULT_SETTINGS.aiProvider, DEFAULT_SETTINGS.isPro,
        DEFAULT_SETTINGS.scansUsed, DEFAULT_SETTINGS.maxFreeScans;
    }

    method SetAIProvider(provider: AIProviderType)
      modifies this
      ensures Settings() == old(Settings()).(aiProvider := provider)
    {
      aiProvider := provider;
    }

    method IncrementScansUsed()
      modifies this
      ensures Settings() == old(Settings()).(scansUsed := old(scansUsed) + 1)
    {
      scansUsed := scansUsed + 1;
    }

    /** Sets the counter to 0 whatever it was, so a second reset changes
        nothing. */
    method ResetScansUsed()
      modifies this
      ensures Settings() == old(Settings()).(scansUsed := 0)
    {
      scansUsed := 0;
    }
  }
}
