/** The admin check that gates registration: a password compared with the
    configured one. */
module AuthController {

  /** The response: its status, the success flag and the message. */
  datatype AdminReply = AdminReply(status: int, success: bool, message: string)

  /** The password used when ADMIN_PASSWORD is not configured. */
  const DefaultAdminPassword: string := "qwerty"

  /** process.env.ADMIN_PASSWORD || 'qwerty'; an unset variable is "". */
  function ExpectedPassword(configured: string): (p: string)
    ensures p != ""
    ensures configured != "" ==> p == configured
  {
    if configured != "" then configured else DefaultAdminPassword
  }

  /** verifyAdmin: 400 without a password, 401 when it differs from the
      expected one, 200 when it is exactly that. An absent password is "". */
  function VerifyAdmin(adminPassword: string, configured: string): (r: AdminReply)
    ensures r.status == 400 <==> adminPassword == ""
    ensures r.status == 200 <==> adminPassword == ExpectedPassword(configured)
    ensures r.status == 401 <==> adminPassword != "" && adminPassword != ExpectedPassword(configured)
    ensures r.success <==> r.status == 200
    ensures adminPassword == "" ==> r == AdminReply(400, false, "Admin password is required")
    ensures adminPassword != "" && adminPassword != ExpectedPassword(configured) ==>
              r == AdminReply(401, false, "Invalid admin password")
    ensures adminPassword != "" && adminPassword == ExpectedPassword(configured) ==>
              r == AdminReply(200, true, "Admin verification successful")
  {
    if adminPassword == "" then AdminReply(400, false, "Admin password is required")
    else if adminPassword != ExpectedPassword(configured) then AdminReply(401, false, "Invalid admin password")
    else AdminReply(200, true, "Admin verification successful")
  }

  /** Exactly one password is accepted: the configured one, or 'qwerty'
      when none is configured. */
  lemma OnlyExpectedPasswordAccepted(p: string, q: string, configured: string)
    requires VerifyAdmin(p, configured).success && VerifyAdmin(q, configured).success
    ensures p == q
    ensures configured == "" ==> p == DefaultAdminPassword
    ensures configured != "" ==> p == configured
  {
  }
}
