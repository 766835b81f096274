/** pkg/nmea2000/pgn/types.go: the fixed-width integers of the NMEA 2000
    code, the table of the PGNs (Parameter Group Numbers) it knows, and the
    message that carries one PGN's payload. */
module PgnTypes {
  import opened Bytes

  type uint16 = x: int | 0 <= x < 0x1_0000
  type int16 = x: int | -0x8000 <= x < 0x8000
  type uint32 = x: int | 0 <= x < 0x1_0000_0000
  type int32 = x: int | -0x8000_0000 <= x < 0x8000_0000

  /** One table entry. Resolution, Min and Max (float64) are zero in every
      entry of the table and are not modelled; Units is empty in all of them. */
  datatype PgnDefinition = PgnDefinition(
    pgn: uint32,
    name: string,
    length: byte,
    units: string,
    description: string)

  const VESSEL_HEADING: uint32 := 127250
  const SPEED: uint32 := 128259
  const WATER_DEPTH: uint32 := 128267
  const POSITION_RAPID: uint32 := 129025
  const COG_SOG_RAPID: uint32 := 129026
  const WIND_DATA: uint32 := 130306

  /** CommonPGNs. */
  const CommonPgns: map<uint32, PgnDefinition> := map[
    127250 := PgnDefinition(127250, "Vessel Heading", 8, "",
      "Heading sensor value with a flag for True or Magnetic"),
    128259 := PgnDefinition(128259, "Speed", 8, "", "Speed through water"),
    128267 := PgnDefinition(128267, "Water Depth", 8, "", "Water depth information"),
    129025 := PgnDefinition(129025, "Position Rapid Update", 8, "",
      "Provides lat/lon rapid update"),
    129026 := PgnDefinition(129026, "COG & SOG Rapid Update", 8, "",
      "Course Over Ground and Speed Over Ground"),
    130306 := PgnDefinition(130306, "Wind Data", 8, "", "Wind speed, direction, and reference")
  ]

  /** A PGN and its payload. Nothing ties the payload's length to the PGN:
      the network code frames payloads of any length. */
  datatype Message = Message(pgn: uint32, data: seq<byte>)

  /** The table holds exactly these six PGNs. */
  lemma CommonPgnsKeys()
    ensures CommonPgns.Keys ==
      {VESSEL_HEADING, SPEED, WATER_DEPTH, POSITION_RAPID, COG_SOG_RAPID, WIND_DATA}
  {
  }

  /** Every entry is filed under its own PGN and declares an 8-byte payload. */
  lemma CommonPgnsWellFormed()
    ensures forall k :: k in CommonPgns ==> CommonPgns[k].pgn == k && CommonPgns[k].length == 8
  {
  }
}
