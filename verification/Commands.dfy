/** The commands that travel from the controller to the Base and UE programs. */
module Commands {

  datatype CommandType = PUBLISH_VDA | PUBLISH_TELEOP | START_VIDEO | STOP_VIDEO | EXIT

  datatype Command = Command(typ: CommandType, topic: string, msg: string)

  const TELEOP_STATE_TOPIC := "uagv/v2/manufacturer/SN/teleop_state"
}
