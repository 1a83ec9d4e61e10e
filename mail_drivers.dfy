/** The mail driver registry (mail/driver/instance.go): one driver per driver type. */
module MailDrivers {
  import opened Wrappers

  /** driver.Type: TypeSMTP = 0, TypeSendCloud = 1, TypeAliyun = 2, TypeTencentCloud = 3. */
  const TypeSMTP: int := 0
  const TypeSendCloud: int := 1
  const TypeAliyun: int := 2
  const TypeTencentCloud: int := 3

  /** The package-level Drivers value, holding drivers of type D. */
  class Drivers<D> {
    var m: map<int, D>

    /** init(): the registry starts empty. */
    constructor ()
      ensures m == map[]
    {
      m := map[];
    }

    /** Register(name, driver): stores the driver under its type, replacing any earlier one; other types keep theirs. */
    method Register(name: int, driver: D)
      modifies this
      ensures m == old(m)[name := driver]
      ensures Get(name) == Some(driver)
      ensures forall t :: t != name ==> Get(t) == old(Get(t))
    {
      m := m[name := driver];
    }

    /** Get(name): the registered driver, or nil for an unregistered type. */
    function Get(name: int): (d: Option<D>)
      reads this
      ensures d.Some? <==> name in m
      ensures d.Some? ==> d.value == m[name]
    {
      if name in m then Some(m[name]) else None
    }
  }
}
