/** The login screen: a phone number and a password, both required. */
module Login {
  import opened Options
  import opened Forms

  const Fields: seq<string> := ["phoneNumber", "password"]

  /** `handleLogin`'s check flags `phoneNumber` and `password`, each exactly when it is empty. */
  lemma LoginFlags(data: map<string, string>)
    ensures InvalidFlags(data, Fields) ==
      map["phoneNumber" := IsBlank(data, "phoneNumber"), "password" := IsBlank(data, "password")]
    ensures AnyInvalid(InvalidFlags(data, Fields)) <==>
      IsBlank(data, "phoneNumber") || IsBlank(data, "password")
  {
    BlockedIffBlankField(data, Fields);
  }

  /**
   * A user who types a phone number but no password and presses Login gets the
   * inline error, and no request is sent.
   */
  method EmptyPasswordIsRejected(phoneNumber: string) returns (request: Option<map<string, string>>, error: Option<string>, loading: bool)
    ensures request == None && error == Some(FillInMessage) && !loading
  {
    var screen := new FormScreen(Fields);
    screen.HandleChange("phoneNumber", phoneNumber);
    LoginFlags(screen.formData);
    request := screen.PressSubmit();
    error, loading := screen.error, screen.loading;
  }

  /** A user who fills in both fields and presses Login sends exactly those values. */
  method FilledFormIsSent(phoneNumber: string, password: string) returns (request: Option<map<string, string>>, loading: bool)
    requires phoneNumber != "" && password != ""
    ensures request == Some(map["phoneNumber" := phoneNumber, "password" := password]) && loading
  {
    var screen := new FormScreen(Fields);
    screen.HandleChange("phoneNumber", phoneNumber);
    screen.HandleChange("password", password);
    assert screen.formData == map["phoneNumber" := phoneNumber, "password" := password];
    LoginFlags(screen.formData);
    request := screen.PressSubmit();
    loading := screen.loading;
  }
}
