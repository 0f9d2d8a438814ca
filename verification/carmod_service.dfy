/** `createCarModRequest` (controllers/carModController.js). */
module CarModService {
  import opened Wrappers
  import opened Common
  import Text
  import opened CarModModel

  /** The outcome of the checks before a request is stored: 400 when the
      name, email, phone or package is missing, 500 when the name, email or
      phone is only whitespace (the presence check lets it through, then the
      schema trims it to nothing and its `required` fails), else none. */
  function CreateCheck(name: string, email: string, phone: string, carPackage: string): (r: Option<int>)
    ensures r == Some(BAD_REQUEST) <==> name == "" || email == "" || phone == "" || carPackage == ""
    ensures r.None? <==> FieldsPresent(name, email, phone, carPackage)
    ensures r.Some? ==> r.value in {BAD_REQUEST, SERVER_ERROR}
  {
    if name == "" || email == "" || phone == "" || carPackage == "" then Some(BAD_REQUEST)
    else if !FieldsPresent(name, email, phone, carPackage) then Some(SERVER_ERROR)
    else None
  }

  /** A whitespace-only name passes the presence check and fails the schema. */
  lemma BlankNameFailsSave(name: string, email: string, phone: string, carPackage: string)
    requires name != "" && Text.IsBlank(name)
    requires email != "" && phone != "" && carPackage != ""
    ensures CreateCheck(name, email, phone, carPackage) == Some(SERVER_ERROR)
  {
    Text.TrimEmptyIffBlank(name);
  }

  /** `createCarModRequest`: the user comes from the authenticated principal
      when there is one; the status is never taken from the request, so a
      new request is always pending; success is 201 with the stored request. */
  method CreateCarModRequest(principal: Option<Principal>, name: string, email: string, phone: string,
                             carPackage: string, message: string, now: int)
    returns (status: int, request: CarModRequest?)
    ensures status == (if CreateCheck(name, email, phone, carPackage).Some?
                       then CreateCheck(name, email, phone, carPackage).value else CREATED)
    ensures request == null <==> status != CREATED
    ensures request != null ==> fresh(request) && request.Valid() && request.status == Pending
    ensures request != null ==> request.user == (if principal.Some? then Some(principal.value.id) else None)
    ensures request != null ==> request.name == Text.Trim(name) && request.email == Text.Trim(email) &&
                                request.phone == Text.Trim(phone) && request.carPackage == carPackage &&
                                request.message == message && request.createdAt == now
  {
    var check := CreateCheck(name, email, phone, carPackage);
    if check.Some? {
      return check.value, null;
    }
    var user := if principal.Some? then Some(principal.value.id) else None;
    request := new CarModRequest(user, name, email, phone, carPackage, message, now);
    status := CREATED;
  }
}
