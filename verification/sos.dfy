/**
 * The emergency SOS (EyeTrackingFragment.sendEmergencySOS): what the attempt does
 * with the saved contact, the last known location and the SMS service. Every failure
 * is caught, so an attempt always yields one of three outcomes and never an exception.
 */
module Sos {
  import opened Wrappers

  /** A location fix, with its coordinates as the platform prints them. */
  datatype Fix = Fix(latitude: string, longitude: string)

  /** What the attempt depends on outside the monitor. */
  datatype SosEnv = SosEnv(
    emergencyNumber: string,      // the saved contact, "" when none is saved
    finePermission: bool,         // ACCESS_FINE_LOCATION granted
    gpsFix: Option<Fix>,          // last known GPS location
    networkFix: Option<Fix>,      // last known network location
    smsAccepted: bool)            // false when the location lookup or the send throws

  datatype SosOutcome = NoNumber | Sent(number: string, message: string) | SendFailed

  const Unavailable: string := "Location unavailable"
  const MapsPrefix: string := "https://maps.google.com/?q="
  const MessagePrefix: string := "EMERGENCY: Driver is unresponsive! Last known location: "

  /** GPS first, then the network provider, and nothing without the location permission. */
  function LastKnownLocation(finePermission: bool, gps: Option<Fix>, network: Option<Fix>): (loc: Option<Fix>)
    ensures !finePermission ==> loc.None?
    ensures finePermission && gps.Some? ==> loc == gps
    ensures finePermission && gps.None? ==> loc == network
  {
    if !finePermission then None
    else if gps.Some? then gps
    else network
  }

  /** The location part of the message: a maps link, or a plain note when no fix is known. */
  function MapsLink(loc: Option<Fix>): (link: string)
    ensures link == Unavailable <==> loc.None?
    ensures loc.Some? ==> link == MapsPrefix + loc.value.latitude + "," + loc.value.longitude
  {
    match loc
    case None => Unavailable
    case Some(fix) =>
      var link := MapsPrefix + fix.latitude + "," + fix.longitude;
      assert link[0] != Unavailable[0];
      link
  }

  /** The one attempt: no number, a message handed to the SMS service, or a caught failure. */
  function SendEmergencySOS(env: SosEnv): (r: SosOutcome)
    ensures r.NoNumber? <==> env.emergencyNumber == ""
    ensures r.Sent? <==> env.emergencyNumber != "" && env.smsAccepted
    ensures r.Sent? ==> r.number == env.emergencyNumber
    ensures r.Sent? ==> MessagePrefix <= r.message
    ensures r.Sent? && LastKnownLocation(env.finePermission, env.gpsFix, env.networkFix).None?
            ==> r.message == MessagePrefix + Unavailable
  {
    if env.emergencyNumber == "" then NoNumber
    else if !env.smsAccepted then SendFailed
    else
      var loc := LastKnownLocation(env.finePermission, env.gpsFix, env.networkFix);
      Sent(env.emergencyNumber, MessagePrefix + MapsLink(loc))
  }
}
