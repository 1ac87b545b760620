/**
 * The report record the administrator dashboard keeps and hands to the map view. The map
 * view's own `Report` interface is the same record without `reportedBy` and `estimatedCost`;
 * it reads nothing else, so one datatype serves both. The source field `type` is `issueType`
 * here (`type` is a Dafny keyword).
 */
module Reports {

  datatype Report = Report(
    id: int,
    issueType: string,
    location: string,
    lat: real,
    lng: real,
    status: string,
    severity: string,
    reportedBy: string,
    reportedAt: string,
    estimatedMaterial: string,
    estimatedCost: string,
    image: string)
}
