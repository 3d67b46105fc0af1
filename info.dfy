/** The information resources of the greeting service: `system-info`, a
    fixed URI, and `user-info`, one URI per user name. */
module Info {

  const SystemInfoName: string := "system-info"
  const SystemInfoUri: string := "system://info"
  const UserInfoName: string := "user-info"
  const UserInfoTemplate: string := "user://{username}/info"

  /** The record the `system-info` resource reports. `platform`,
      `nodeVersion` and `timestamp` are read from the process and the clock. */
  datatype SystemInfo = SystemInfo(
    platform: string, nodeVersion: string,
    serverName: string, serverVersion: string, timestamp: string)

  /** The record the `user-info` resource reports; `lastLogin` is the clock's
      current time. */
  datatype UserInfo = UserInfo(username: string, accessLevel: string, lastLogin: string)

  /** One entry of a resource read: the URI read and the record it holds
      (the source sends the record as JSON text). */
  datatype ResourceContents<T> = ResourceContents(uri: string, record: T)

  /** The answer to a resource read. */
  datatype ReadResult<T> = ReadResult(contents: seq<ResourceContents<T>>)

  /** The `system-info` handler: `href` is the requested URI, the other
      parameters what the process and the clock report. */
  function ReadSystemInfo(href: string, platform: string, nodeVersion: string, now: string)
    : (r: ReadResult<SystemInfo>)
    ensures |r.contents| == 1 && r.contents[0].uri == href
    ensures r.contents[0].record.serverName == "mcp-service"
    ensures r.contents[0].record.serverVersion == "1.0.0"
    ensures r.contents[0].record.platform == platform
    ensures r.contents[0].record.nodeVersion == nodeVersion
    ensures r.contents[0].record.timestamp == now
  {
    ReadResult([ResourceContents(href, SystemInfo(platform, nodeVersion, "mcp-service", "1.0.0", now))])
  }

  /** A user's access level: "administrator" for the user named exactly
      "admin", "user" for everyone else. */
  function AccessLevel(username: string): (r: string)
    ensures r == "administrator" <==> username == "admin"
    ensures r == "user" <==> username != "admin"
  {
    if username == "admin" then "administrator" else "user"
  }

  /** The `user-info` handler: `href` is the requested URI and `username`
      the part of it the URI template matched. */
  function ReadUserInfo(href: string, username: string, now: string): (r: ReadResult<UserInfo>)
    ensures |r.contents| == 1 && r.contents[0].uri == href
    ensures r.contents[0].record.username == username
    ensures r.contents[0].record.accessLevel == AccessLevel(username)
    ensures r.contents[0].record.lastLogin == now
  {
    ReadResult([ResourceContents(href, UserInfo(username, AccessLevel(username), now))])
  }
}
