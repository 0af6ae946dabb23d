/** The global wind record and the one-cell store that holds it. */
module WindStore {
  import opened Numerics

  /** Speed, horizontal direction, turbulence and the clock reading it was
      computed at. */
  datatype WindData = WindData(speed: real, direction: Vec2, turbulence: real, time: real)

  /** The record the store starts with. */
  const InitialWind: WindData := WindData(1.0, Vec2(1.0, 0.0), 1.0, 0.0)

  /** The store's state: the current record. */
  class Store {
    var windData: WindData

    constructor ()
      ensures windData == InitialWind
      ensures windData.speed == 1.0 && windData.direction == Vec2(1.0, 0.0)
      ensures windData.turbulence == 1.0 && windData.time == 0.0
    {
      windData := InitialWind;
    }

    /** `setWindData`: the whole record is replaced, no field is merged. */
    method SetWindData(data: WindData)
      modifies this
      ensures windData == data
    {
      windData := data;
    }
  }

  /** Two writes in a row: the second record is what remains; nothing of the
      first survives. */
  method WriteTwice(store: Store, first: WindData, second: WindData)
    modifies store
    ensures store.windData == second
  {
    store.SetWindData(first);
    store.SetWindData(second);
  }
}
