/** The media clock that sender and receiver share: one frame of voice per tick, silence included. */
module MediaClock {
  const FRAME_US := 20_000
}
