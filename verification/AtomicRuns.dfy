/** Runs of the service in which every call is atomic; time passes between calls. */
module AtomicRuns {
  import opened Model
  import opened Service

  datatype Event = Tick(d: nat) | Call(req: Request)

  ghost function After(cfg: Config, w: World, e: Event): World {
    match e
    case Tick(d) => w.(now := w.now + d)
    case Call(req) => Apply(cfg, w, req).0
  }

  /** The world before the i-th event of a run. */
  ghost function At(cfg: Config, w0: World, evs: seq<Event>, i: nat): World
    requires i <= |evs|
  {
    if i == 0 then w0 else After(cfg, At(cfg, w0, evs, i - 1), evs[i - 1])
  }
}
