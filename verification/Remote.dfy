/** How a call to Redis, DynamoDB or SQS ends. */
module Remote {
  /** Reported done, refused without effect, or done but reported failed. */
  datatype Outcome = Done | Refused | Unclear
}
