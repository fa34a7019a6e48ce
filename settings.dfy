/**
 * The read-through cache of Rancher settings. A lookup fails with
 * `NotFound` for an absent setting and with an opaque error when the cache
 * itself fails.
 */
module Settings {
  import opened Wrappers
  import opened Kube

  datatype Setting = Setting(value: string)

  datatype SettingCache = SettingCache(settings: map<string, Setting>, fault: Option<string>)
  {
    function Get(name: string): (r: Result<Setting, ApiError>)
      ensures r.Success? <==> fault.None? && name in settings
      ensures r.Success? ==> r.value == settings[name]
    {
      if fault.Some? then Failure(Other(fault.value))
      else if name in settings then Success(settings[name])
      else Failure(NotFound)
    }
  }
}
