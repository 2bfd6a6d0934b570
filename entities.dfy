/**
 * The record shapes of the IReV API (src/core/entities.ts).
 *
 * JSON field names are written in camelCase; the JSON `_id` of every entity is
 * `id` here. JavaScript numbers that hold counts and identifiers are `int`.
 */
module Entities {

  datatype ElectionType = ElectionType(
    id: string, createdAt: string, updatedAt: string,
    name: string, code: string,
    electionTypeId: int)

  datatype Election = Election(
    id: string, createdAt: string, updatedAt: string,
    fullName: string,
    electionDate: string,
    electionId: int,
    electionType: string,
    electionTypeId: int)

  /** The statistics this client hands to its callers. */
  datatype ElectionPollStats = ElectionPollStats(total: int, submitted: int)

  datatype State = State(
    id: string, createdAt: string, updatedAt: string,
    name: string, code: string,
    stateId: int)

  datatype Lga = Lga(
    id: string, createdAt: string, updatedAt: string,
    name: string, code: string,
    lgaId: int,
    state: string,
    stateId: int)

  datatype Ward = Ward(
    id: string, createdAt: string, updatedAt: string,
    name: string, code: string,
    wardId: int,
    oldName: string,
    state: string, stateId: int,
    lga: string, lgaId: int,
    stateConstituency: string, stateConstituencyId: int,
    federalConstituency: string, federalConstituencyId: int,
    senatorialDistrict: string, senatorialDistrictId: int)

  /**
   * What a polling unit's `ward` property holds at run time: the declared
   * identifier string, or (as two endpoints return it) the whole Ward object.
   */
  datatype WardRef = WardObject(full: Ward) | WardId(id: string)

  datatype PollingUnit = PollingUnit(
    id: string, createdAt: string, updatedAt: string,
    name: string, code: string,
    pollingUnitId: int,
    oldName: string,
    isAccredited: bool,
    wardId: int,
    ward: WardRef,
    puCode: string,
    puCodeString: string,
    batch: int)

  datatype Document = Document(
    external: bool,
    status: int,
    id: string,
    size: int,
    url: string,
    updatedAt: string)
}
