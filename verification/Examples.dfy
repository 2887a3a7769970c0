/** A world for the examples that show what can happen. */
module Examples {
  import opened Wrappers
  import opened GoErrors
  import opened ClientSpec

  /** A world in which everything works. */
  const SUNNY: Env := Env(
    bundle => true, pair => None, dial => None, "", "",
    (account, audiences) => Ok("jwt"),
    (conn, path, body) => Token("t"),
    (conn, path, body) => WriteToken("t"),
    conn => HealthReply(Some(200), None),
    parts => "", "token", "/v1/auth/cert", "/v1/auth/kubernetes",
    AwsEnv("", region => Ok(region), region => Ok(Credentials("id", "key", "session")),
           (region, arn, jwt) => Ok(Credentials("id", "key", "session")),
           (credentials, header, region) => Ok(map[])))
}
