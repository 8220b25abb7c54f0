/** The sign-up page's `onSubmit`: refuse mismatched passwords, otherwise
    copy every form value into a `FormData` (the registration request
    itself is not sent yet).
 */
module SignUp {
  import opened Entities

  /** The form values, in the order the inputs are registered. The
      optional text inputs hold "" when left empty. */
  datatype Form = Form(
    username: string,
    email: string,
    password: string,
    confirmPassword: string,
    imgPath: seq<File>,
    address: string,
    phone: string,
    bank: string,
    accountNumber: string,
    accountName: string)

  datatype Value = Text(text: string) | Files(files: seq<File>)

  /** `Object.entries(data)`: the keys in the order the inputs are
      registered, each with its value. */
  function Entries(f: Form): (es: seq<(string, Value)>)
    ensures |es| == 10
    ensures seq(|es|, i requires 0 <= i < |es| => es[i].0)
         == ["username", "email", "password", "confirmPassword", "imgPath",
             "address", "phone", "bank", "account_number", "account_name"]
    ensures es[4].1 == Files(f.imgPath)
    ensures forall i :: 0 <= i < |es| && i != 4 ==> es[i].1.Text?
  {
    [("username", Text(f.username)), ("email", Text(f.email)),
     ("password", Text(f.password)), ("confirmPassword", Text(f.confirmPassword)),
     ("imgPath", Files(f.imgPath)), ("address", Text(f.address)), ("phone", Text(f.phone)),
     ("bank", Text(f.bank)), ("account_number", Text(f.accountNumber)),
     ("account_name", Text(f.accountName))]
  }

  /** A `FormData` entry value: a string or a file. */
  datatype Part = StringPart(s: string) | FilePart(file: File)

  /** The value appended for one entry: the first file of `imgPath` (or
      the string "undefined" when there is none), any other value as it
      is. */
  function PartOf(key: string, v: Value): (p: Part)
    ensures key == "imgPath" && v.Files? && v.files != [] ==> p == FilePart(v.files[0])
    ensures key == "imgPath" && v.Files? && v.files == [] ==> p == StringPart("undefined")
    ensures key != "imgPath" && v.Text? ==> p == StringPart(v.text)
  {
    if key == "imgPath" then
      (match v
       case Files(fs) => if fs != [] then FilePart(fs[0]) else StringPart("undefined")
       case Text(t) => StringPart(t))
    else
      (match v
       case Text(t) => StringPart(t)
       case Files(fs) => StringPart("[object FileList]"))
  }

  /** Why a press of "Register" built nothing, or what it built. */
  datatype Outcome = Blocked | PasswordMismatch | Built(parts: seq<(string, Part)>)

  /** The `required` rules: username, email, both passwords and a file. */
  function Required(f: Form): (ok: bool)
    ensures ok ==> PartOf("imgPath", Entries(f)[4].1).FilePart?
  {
    f.username != "" && f.email != "" && f.password != "" && f.confirmPassword != "" && |f.imgPath| >= 1
  }

  /** `handleSubmit(onSubmit)`. */
  function Submit(f: Form): (r: Outcome)
    ensures !Required(f) ==> r == Blocked
    ensures Required(f) && f.password != f.confirmPassword ==> r == PasswordMismatch
    ensures r.Built? ==> f.password == f.confirmPassword
    ensures r.Built? ==> |r.parts| == |Entries(f)|
    ensures r.Built? ==> forall i :: 0 <= i < |r.parts| ==>
      r.parts[i].0 == Entries(f)[i].0 && r.parts[i].1 == PartOf(Entries(f)[i].0, Entries(f)[i].1)
  {
    if !Required(f) then Blocked
    else if f.password != f.confirmPassword then PasswordMismatch
    else
      var es := Entries(f);
      Built(seq(|es|, i requires 0 <= i < |es| => (es[i].0, PartOf(es[i].0, es[i].1))))
  }

  /** A built form appends each key exactly once and carries only the first
      chosen file. */
  lemma EachKeyOnceFirstFileOnly(f: Form)
    requires Submit(f).Built?
    ensures var ps := Submit(f).parts;
      (forall i, j :: 0 <= i < j < |ps| ==> ps[i].0 != ps[j].0) &&
      ps[4] == ("imgPath", FilePart(f.imgPath[0])) &&
      (forall i :: 0 <= i < |ps| && ps[i].1.FilePart? ==> i == 4)
  {
    var ps := Submit(f).parts;
    assert ps[0].0 == "username" && ps[1].0 == "email" && ps[2].0 == "password";
    assert ps[3].0 == "confirmPassword" && ps[4].0 == "imgPath" && ps[5].0 == "address";
    assert ps[6].0 == "phone" && ps[7].0 == "bank" && ps[8].0 == "account_number";
    assert ps[9].0 == "account_name";
  }
}
