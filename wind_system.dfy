/** The global wind: every frame a fresh record is computed from the clock
    alone and written to the wind store.
 */
module WindSystem {
  import opened Numerics
  import opened WindStore

  /** The record at clock reading t: speed 0.5 + 0.3 sin(0.3 t), direction
      (0.8 sin(0.2 t), 0.8 cos(0.15 t)), turbulence 0.8 + 0.2 sin(2 t). */
  function WindAt(m: Prims, time: real): (w: WindData)
    ensures w.time == time
    ensures Lawful(m) ==>
      && 0.2 <= w.speed <= 0.8
      && -0.8 <= w.direction.x <= 0.8 && -0.8 <= w.direction.y <= 0.8
      && 0.6 <= w.turbulence <= 1.0
  {
    WindData(0.5 + m.sin(time * 0.3) * 0.3,
             Vec2(m.sin(time * 0.2) * 0.8, m.cos(time * 0.15) * 0.8),
             m.sin(time * 2.0) * 0.2 + 0.8,
             time)
  }

  /** The frame callback: one complete record, computed from the clock reading,
      written in one call. */
  method Tick(store: Store, elapsed: real, m: Prims)
    modifies store
    ensures store.windData == WindAt(m, elapsed)
  {
    var time := elapsed;
    var windSpeed := 0.5 + m.sin(time * 0.3) * 0.3;
    var windDirection := Vec2(m.sin(time * 0.2) * 0.8, m.cos(time * 0.15) * 0.8);
    var turbulence := m.sin(time * 2.0) * 0.2 + 0.8;
    store.SetWindData(WindData(windSpeed, windDirection, turbulence, time));
  }
}
