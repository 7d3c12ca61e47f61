/** The configuration record shared by the services and the customer record
    with its map form. */
module Configuration {
  import opened Results

  /** Account identity, the number messages and calls come from, the public
      base URL, and where and how the provider reports call status. */
  datatype TwilioConfiguration = TwilioConfiguration(
    accountSid: string,
    accountPhoneNumber: string,
    baseUrl: string,
    statusCallbackPath: string,
    statusCallbackMethod: string)

  datatype Customer = Customer(
    phoneNumber: string,
    firstName: string,
    lastName: string,
    email: string,
    id: string,
    createdAt: string)

  const CUSTOMER_KEYS: set<string> := {"phoneNumber", "firstName", "lastName", "email", "id", "createdAt"}

  /** The customer as a key/value map, one entry per field. */
  function CustomerToMap(c: Customer): (m: map<string, string>)
    ensures m.Keys == CUSTOMER_KEYS
  {
    map[
      "phoneNumber" := c.phoneNumber,
      "firstName" := c.firstName,
      "lastName" := c.lastName,
      "email" := c.email,
      "id" := c.id,
      "createdAt" := c.createdAt]
  }

  /** Rebuilds a customer from its map form, when every key is present. */
  function CustomerFromMap(m: map<string, string>): Option<Customer> {
    if CUSTOMER_KEYS <= m.Keys then
      Some(Customer(m["phoneNumber"], m["firstName"], m["lastName"], m["email"], m["id"], m["createdAt"]))
    else None
  }

  /** Every field appears under its own key, unchanged; in particular the
      phone number and the e-mail address are not swapped. */
  lemma CustomerToMapFields(c: Customer)
    ensures var m := CustomerToMap(c);
      && m["phoneNumber"] == c.phoneNumber && m["firstName"] == c.firstName
      && m["lastName"] == c.lastName && m["email"] == c.email
      && m["id"] == c.id && m["createdAt"] == c.createdAt
  {
  }

  /** The map form loses nothing: the customer can be rebuilt from it. */
  lemma CustomerMapRoundTrip(c: Customer)
    ensures CustomerFromMap(CustomerToMap(c)) == Some(c)
  {
    CustomerToMapFields(c);
  }

  /** Conversely, a map with exactly the six keys is the map form of the
      customer rebuilt from it. */
  lemma CustomerMapRoundTripBack(m: map<string, string>)
    requires m.Keys == CUSTOMER_KEYS
    ensures CustomerFromMap(m).Some? && CustomerToMap(CustomerFromMap(m).value) == m
  {
    var c := CustomerFromMap(m).value;
    var m' := CustomerToMap(c);
    assert forall k | k in CUSTOMER_KEYS :: m'[k] == m[k];
  }
}
