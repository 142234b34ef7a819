/** RiderInfo.java: the validated rider details assigned to a delivery. */
module RiderInfoValue {
  import opened Outcomes
  import opened Text

  datatype RiderInfo = RiderInfo(riderId: string, riderName: string, phoneNumber: string, vehicleType: string)

  datatype RiderInfoError =
    | BlankRiderId      // "RiderId cannot be null or empty"
    | BlankRiderName    // "RiderName cannot be null or empty"
    | BlankPhoneNumber  // "PhoneNumber cannot be null or empty"

  const DefaultVehicleType: string := "BICYCLE"

  predicate NullOrBlank(s: Option<string>) {
    s.None? || IsBlank(s.value)
  }

  /** The public constructor: the three identifying fields are checked in order and kept exactly as
      given (not trimmed); a null vehicle type becomes "BICYCLE". */
  function New(riderId: Option<string>, riderName: Option<string>, phoneNumber: Option<string>,
               vehicleType: Option<string>): (r: Result<RiderInfo, RiderInfoError>)
    ensures r.Ok? <==> !NullOrBlank(riderId) && !NullOrBlank(riderName) && !NullOrBlank(phoneNumber)
    ensures NullOrBlank(riderId) ==> r == Err(BlankRiderId)
    ensures !NullOrBlank(riderId) && NullOrBlank(riderName) ==> r == Err(BlankRiderName)
    ensures !NullOrBlank(riderId) && !NullOrBlank(riderName) && NullOrBlank(phoneNumber) ==> r == Err(BlankPhoneNumber)
    ensures r.Ok? ==> && r.value.riderId == riderId.value && r.value.riderName == riderName.value
                      && r.value.phoneNumber == phoneNumber.value
    ensures r.Ok? ==> r.value.vehicleType == (if vehicleType.Some? then vehicleType.value else DefaultVehicleType)
  {
    if NullOrBlank(riderId) then Err(BlankRiderId)
    else if NullOrBlank(riderName) then Err(BlankRiderName)
    else if NullOrBlank(phoneNumber) then Err(BlankPhoneNumber)
    else Ok(RiderInfo(riderId.value, riderName.value, phoneNumber.value,
                      if vehicleType.Some? then vehicleType.value else DefaultVehicleType))
  }

  /** `RiderInfo.of` with four arguments: the constructor's checks, and on success the rider as given. */
  function Of(riderId: Option<string>, riderName: Option<string>, phoneNumber: Option<string>,
              vehicleType: Option<string>): (r: Result<RiderInfo, RiderInfoError>)
    ensures r.Ok? <==> !NullOrBlank(riderId) && !NullOrBlank(riderName) && !NullOrBlank(phoneNumber)
    ensures r.Ok? ==> r.value == RiderInfo(riderId.value, riderName.value, phoneNumber.value,
                                           if vehicleType.Some? then vehicleType.value else DefaultVehicleType)
  {
    New(riderId, riderName, phoneNumber, vehicleType)
  }

  /** `RiderInfo.of` with three arguments, which always asks for a bicycle. */
  function OfDefaultVehicle(riderId: Option<string>, riderName: Option<string>, phoneNumber: Option<string>)
    : (r: Result<RiderInfo, RiderInfoError>)
    ensures r.Ok? ==> r.value.vehicleType == DefaultVehicleType
  {
    New(riderId, riderName, phoneNumber, Some(DefaultVehicleType))
  }

  /** Leaving the vehicle type out and passing null build the same rider. */
  lemma DefaultVehicleAgreesWithNull(riderId: Option<string>, riderName: Option<string>, phoneNumber: Option<string>)
    ensures OfDefaultVehicle(riderId, riderName, phoneNumber) == Of(riderId, riderName, phoneNumber, None)
  {
  }

  /** `equals`: all four fields compared, which is equality of the model's values. */
  predicate Equals(a: RiderInfo, b: RiderInfo)
    ensures Equals(a, b) <==> a == b
  {
    a.riderId == b.riderId && a.riderName == b.riderName && a.phoneNumber == b.phoneNumber
      && a.vehicleType == b.vehicleType
  }
}
