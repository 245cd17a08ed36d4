/** The records shared by the components: an event, a user and what the join form submits. */
module Types {

  /** An optional value; stands for TypeScript's optional properties and `T | null` state cells. */
  datatype Option<+T> = None | Some(value: T)

  /** A locally created event. `joinCode` is optional in the record type. */
  datatype Event = Event(
    id: string,
    title: string,
    description: string,
    date: string,
    isAdmin: bool,
    joinCode: Option<string>)

  /** The person using the tab, once they have created or joined an event. */
  datatype User = User(id: string, name: string, isAdmin: bool)

  /** What the join form hands to the root view. */
  datatype JoinFormData = JoinFormData(name: string, joinCode: string)

  /** JavaScript truthiness of an optional string: null/undefined and "" are falsy. */
  predicate Truthy(s: Option<string>) {
    s.Some? && s.value != ""
  }
}
