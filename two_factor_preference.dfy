/** A user's registered second-factor method: an authenticator-app secret
    (`isKey`) or a delivery destination for generated codes. */
module Preferences {

  /** The value of a preference at one instant: what a user record carries. */
  datatype Pref = Pref(isKey: bool, data: string)

  /** The mutable preference object; `setKey` and `setData` overwrite one field each. */
  class TwoFactorPreference {
    var isKey: bool
    var data: string

    constructor (isKey: bool, data: string)
      ensures Value() == Pref(isKey, data)
    {
      this.isKey := isKey;
      this.data := data;
    }

    /** The current field values. */
    function Value(): Pref
      reads this
    {
      Pref(isKey, data)
    }

    method IsKey() returns (k: bool)
      ensures k == Value().isKey
    {
      k := isKey;
    }

    method GetData() returns (d: string)
      ensures d == Value().data
    {
      d := data;
    }

    method SetKey(key: bool)
      modifies this
      ensures Value() == old(Value()).(isKey := key)
    {
      isKey := key;
    }

    method SetData(data: string)
      modifies this
      ensures Value() == old(Value()).(data := data)
    {
      this.data := data;
    }
  }
}
