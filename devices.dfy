/**
  Device.send_message: route a push message to the sender of the device's platform. The three
  platform senders (APNS, FCM, legacy GCM) are not modelled here; the result names the sender
  that is called and the arguments it receives, or says that nothing was sent (False).
*/
module Devices {
  import opened Wrappers

  const PlatformIos: string := "ios"
  const PlatformGcm: string := "gcm"
  const PlatformFcm: string := "fcm"

  /** A registered device; the platform is free text, as in the database column. */
  datatype Device = Device(
    user: int,
    notificationToken: string,
    deviceId: string,
    isActive: bool,
    appId: string,
    platform: string)

  datatype Sender = GcmSender | ApnsSender | FcmSender

  /** What send_message did: returned False, or called one sender with the device, the message
      as text and the extra data. */
  datatype Dispatch =
    | NotSent
    | Routed(sender: Sender, device: Device, message: string, data: map<string, string>)

  /** The sender that serves a platform, if the platform is known. */
  function SenderFor(platform: string): (s: Option<Sender>)
    ensures s == Some(GcmSender) <==> platform == PlatformGcm
    ensures s == Some(ApnsSender) <==> platform == PlatformIos
    ensures s == Some(FcmSender) <==> platform == PlatformFcm
    ensures s == None <==> platform !in {PlatformIos, PlatformGcm, PlatformFcm}
  {
    if platform == PlatformGcm then Some(GcmSender)
    else if platform == PlatformIos then Some(ApnsSender)
    else if platform == PlatformFcm then Some(FcmSender)
    else None
  }

  /** Device.send_message: an inactive device or an unknown platform sends nothing; otherwise the
      platform's sender gets the message coerced to text (`forceText`) and the extra data. */
  function SendMessage<M>(d: Device, message: M, data: map<string, string>, forceText: M -> string): (r: Dispatch)
    ensures !d.isActive ==> r == NotSent
    ensures SenderFor(d.platform) == None ==> r == NotSent
    ensures d.isActive && SenderFor(d.platform).Some? ==>
      r == Routed(SenderFor(d.platform).value, d, forceText(message), data)
  {
    if !d.isActive then NotSent
    else if d.platform == PlatformGcm then Routed(GcmSender, d, forceText(message), data)
    else if d.platform == PlatformIos then Routed(ApnsSender, d, forceText(message), data)
    else if d.platform == PlatformFcm then Routed(FcmSender, d, forceText(message), data)
    else NotSent
  }

  /** Two devices that reach a sender reach the same one exactly when their platforms agree. */
  lemma OneSenderPerPlatform<M>(d1: Device, d2: Device, m: M, data: map<string, string>, forceText: M -> string)
    requires SendMessage(d1, m, data, forceText).Routed? && SendMessage(d2, m, data, forceText).Routed?
    ensures SendMessage(d1, m, data, forceText).sender == SendMessage(d2, m, data, forceText).sender
      <==> d1.platform == d2.platform
  {
  }
}
