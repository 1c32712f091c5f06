/** The events that drive the behaviour state machine. */
module Events {

  datatype Event =
    | START_PATROL | SCAN_DUE | GOAL_UNREACHABLE | SCAN_DONE | ONBOARD_AVOID | AVOID_CLEARED
    | PERSON_FOUND | TARGET_OFF_CENTER | TARGET_CENTERED | TARGET_LOST
    | PPE_VIOLATION | PPE_SETTLED | PERSON_DOWN | FALL_SUSPECTED | FALL_RESOLVED | ALARM_CONFIRMED
    | AUTH_REQUIRED | AUTH_OK | AUTH_FAILED | MANUAL_ON | MANUAL_OFF
    | ONBOARD_FAILSAFE | LINK_LOST | ESTOP | RESET_CONFIRMED
    | HAZARD_ALARM | HAZARD_ARRIVED | HAZARD_SCAN_DONE | POSE_STALE | POSE_REACQUIRED
    | ZONE_ARRIVED | ZONE_CLEAR | ZONE_CHANGED | ZONE_ALARM_CONFIRMED
}
