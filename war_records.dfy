/** The records of the war-room dashboard (front-web/src/App.jsx): fronts and
    divisions as the simulation mutates them and as the geometry consumes
    them. Display-only fields (colour, commander, doctrine, intel, type,
    experience) are not part of the model. */
module WarRecords {
  import opened Common

  /** `{ lat, lng }` in degrees. */
  datatype LatLng = LatLng(lat: real, lng: real)

  /** The `state` strings a front takes. */
  datatype FrontState = Preparing | Advancing | Idle | Stalled | Secured | Regrouping

  /** A front line: it moves from `startPath` toward `advancePath` as
      `progress` goes from 0 to 1; `width` is the band width in metres. */
  datatype Front = Front(
    id: string,
    name: string,
    objective: string,
    width: real,
    startPath: seq<LatLng>,
    advancePath: seq<LatLng>,
    state: FrontState,
    progress: real,
    readiness: real,
    supply: real,
    reportedLosses: real)

  datatype Faction = Friendly | Enemy

  /** The `status` strings a division takes. */
  datatype DivisionStatus =
    | Frontline | Reserve | Entrenched | Probing | Exhausted
    | Attacking | Reorganizing | Resupplying

  /** `assignment: { frontId, anchor, depth }`; `anchor` and `depth` may be
      missing, which the geometry replaces by defaults. */
  datatype Assignment = Assignment(frontId: string, anchor: Option<real>, depth: Option<real>)

  /** A division; enemy divisions carry no `logistics` (`None`). */
  datatype Division = Division(
    id: string,
    name: string,
    faction: Faction,
    strength: real,
    organization: real,
    logistics: Option<real>,
    status: DivisionStatus,
    assignment: Option<Assignment>,
    position: LatLng)
}
