/** A car-modification request (models/carMod.js): contact details that the
    schema trims, the package asked for, a free message and the status an
    administrator moves it through. */
module CarModModel {
  import opened Wrappers
  import opened Common
  import Text

  datatype CarModStatus = Pending | Reviewed | Accepted | Rejected

  /** The status enum. */
  function ParseCarModStatus(s: string): (r: Option<CarModStatus>)
    ensures r.Some? <==> s in {"pending", "reviewed", "accepted", "rejected"}
    ensures r == Some(Pending) <==> s == "pending"
    ensures r == Some(Reviewed) <==> s == "reviewed"
    ensures r == Some(Accepted) <==> s == "accepted"
    ensures r == Some(Rejected) <==> s == "rejected"
  {
    match s
    case "pending" => Some(Pending)
    case "reviewed" => Some(Reviewed)
    case "accepted" => Some(Accepted)
    case "rejected" => Some(Rejected)
    case _ => None
  }

  /** What `required` demands of the trimmed name, email and phone and of
      the untrimmed package: not empty. */
  predicate FieldsPresent(name: string, email: string, phone: string, carPackage: string) {
    Text.Trim(name) != "" && Text.Trim(email) != "" && Text.Trim(phone) != "" && carPackage != ""
  }

  class CarModRequest {
    const user: Option<UserId>
    const name: string
    const email: string
    const phone: string
    const carPackage: string
    const message: string
    const createdAt: int
    var status: CarModStatus

    ghost predicate Valid()
      reads this
    {
      name != "" && email != "" && phone != "" && carPackage != "" &&
      name == Text.Trim(name) && email == Text.Trim(email) && phone == Text.Trim(phone)
    }

    /** A new request stores name, email and phone trimmed and starts
        pending; a missing message is "". */
    constructor (user: Option<UserId>, name: string, email: string, phone: string,
                 carPackage: string, message: string, now: int)
      requires FieldsPresent(name, email, phone, carPackage)
      ensures Valid()
      ensures this.user == user && this.name == Text.Trim(name) && this.email == Text.Trim(email)
      ensures this.phone == Text.Trim(phone) && this.carPackage == carPackage
      ensures this.message == message && createdAt == now && status == Pending
    {
      this.user := user;
      this.name := Text.Trim(name);
      this.email := Text.Trim(email);
      this.phone := Text.Trim(phone);
      this.carPackage := carPackage;
      this.message := message;
      this.createdAt := now;
      this.status := Pending;
      Text.TrimIdempotent(name);
      Text.TrimIdempotent(email);
      Text.TrimIdempotent(phone);
    }

    method SetStatus(s: CarModStatus)
      modifies this`status
      ensures status == s
    {
      status := s;
    }
  }
}
