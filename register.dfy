/** The registration screen: a name, a phone number and a password, all required. */
module Register {
  import opened Options
  import opened Forms

  const Fields: seq<string> := ["name", "phoneNumber", "password"]

  /** `handleSubmit`'s check flags `name`, `phoneNumber` and `password`, each exactly when it is empty. */
  lemma RegisterFlags(data: map<string, string>)
    ensures InvalidFlags(data, Fields) ==
      map["name" := IsBlank(data, "name"), "phoneNumber" := IsBlank(data, "phoneNumber"),
          "password" := IsBlank(data, "password")]
    ensures AnyInvalid(InvalidFlags(data, Fields)) <==>
      IsBlank(data, "name") || IsBlank(data, "phoneNumber") || IsBlank(data, "password")
  {
    BlockedIffBlankField(data, Fields);
  }

  /** A user who leaves the name empty and presses Register gets the inline error; nothing is sent. */
  method EmptyNameIsRejected(phoneNumber: string, password: string) returns (request: Option<map<string, string>>, error: Option<string>, loading: bool)
    ensures request == None && error == Some(FillInMessage) && !loading
  {
    var screen := new FormScreen(Fields);
    screen.HandleChange("phoneNumber", phoneNumber);
    screen.HandleChange("password", password);
    RegisterFlags(screen.formData);
    request := screen.PressSubmit();
    error, loading := screen.error, screen.loading;
  }

  /** Filling in every field of the empty form gives exactly the three typed values. */
  lemma FilledData(name: string, phoneNumber: string, password: string)
    ensures (map k | k in Fields :: "")["name" := name]["phoneNumber" := phoneNumber]["password" := password]
      == map["name" := name, "phoneNumber" := phoneNumber, "password" := password]
  {
    var m := (map k | k in Fields :: "")["name" := name]["phoneNumber" := phoneNumber]["password" := password];
    assert m.Keys == {"name", "phoneNumber", "password"};
  }

  /** A complete registration is sent, and loading ends once the request has settled. */
  method FilledFormIsSent(name: string, phoneNumber: string, password: string)
    returns (request: Option<map<string, string>>, loadingDuring: bool, loadingAfter: bool)
    requires name != "" && phoneNumber != "" && password != ""
    ensures request == Some(map["name" := name, "phoneNumber" := phoneNumber, "password" := password])
    ensures loadingDuring && !loadingAfter
  {
    var screen := new FormScreen(Fields);
    screen.HandleChange("name", name);
    screen.HandleChange("phoneNumber", phoneNumber);
    screen.HandleChange("password", password);
    FilledData(name, phoneNumber, password);
    RegisterFlags(screen.formData);
    request := screen.PressSubmit();
    loadingDuring := screen.loading;
    screen.FinishSubmit();
    loadingAfter := screen.loading;
  }
}
