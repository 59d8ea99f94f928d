/** The records the controller returns, as the scripts read them, and the
    failures the client's lookups can raise. */
module Records {

  /** An entry of the controller's zone list: only `id` and `name` are read. */
  datatype Zone = Zone(id: string, name: string)

  /** An entry of a zone's WLAN list: only `id` and `ssid` are read. */
  datatype Wlan = Wlan(id: string, ssid: string)

  /** The uncaught Python exceptions a lookup can end in. */
  datatype Fault =
    /** `zone_id` is returned without ever being bound (UnboundLocalError). */
    | ZoneIdUnbound(name: string)
    /** The WLAN scan indexed past the end of the list (IndexError). */
    | WlanIndexOutOfRange(index: int)

  /** A value, or the fault that ended the call before it produced one. */
  datatype Result<+T> = Ok(value: T) | Err(error: Fault)

  datatype Option<+T> = None | Some(value: T)
}
