/** Identifiers and the line-item kind that the order and cart schemas share. */
module Common {
  import opened Wrappers
  import Text

  /** Document ids, in their text form. */
  type UserId = string
  type ProductId = string

  /** The authenticated caller a request carries (`req.user`): its id and
      its role (`user` or `admin`). */
  datatype Principal = Principal(id: UserId, role: string)

  predicate IsAdmin(p: Principal) {
    p.role == "admin"
  }

  /** `itemType`: the enum `['standard', 'custom']` of both the order
      line item and the cart item. */
  datatype ItemType = Standard | Custom

  /** The enum check the schema applies to an incoming `itemType` string. */
  function ParseItemType(s: string): (r: Option<ItemType>)
    ensures r == Some(Standard) <==> s == "standard"
    ensures r == Some(Custom) <==> s == "custom"
    ensures r.None? <==> s != "standard" && s != "custom"
  {
    if s == "standard" then Some(Standard)
    else if s == "custom" then Some(Custom)
    else None
  }

  /** A list holding each element at most once, as a set or `$addToSet`
      keeps it. */
  predicate NoDuplicates<T(==)>(s: seq<T>) {
    forall i, j :: 0 <= i < j < |s| ==> s[i] != s[j]
  }

  /** Whether `mongoose.Types.ObjectId.isValid` accepts a request string:
      24 hexadecimal characters. */
  predicate IsValidObjectId(s: string) {
    Text.IsObjectIdText(s)
  }

  /** The text an ObjectId built from a valid id string prints back
      (`toString()` writes lower-case hexadecimal). */
  function CanonicalId(s: string): (r: string)
    ensures |r| == |s|
  {
    Text.ToLower(s)
  }

  /** An id is printed back unchanged exactly when it has no upper-case letter. */
  lemma CanonicalIdUnchanged(s: string)
    ensures CanonicalId(s) == s <==> forall i :: 0 <= i < |s| ==> !('A' <= s[i] <= 'Z')
  {
    if CanonicalId(s) == s {
      forall i | 0 <= i < |s| ensures !('A' <= s[i] <= 'Z') {
        assert CanonicalId(s)[i] == Text.LowerChar(s[i]);
      }
    }
  }
}
