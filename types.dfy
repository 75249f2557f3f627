/** The shared entity shapes of the client: the signed-in user, the four survey answers, a
    calendar event and a product. They are plain values; none has behaviour of its own. */
module Types {
  import opened Common

  /** The four answers of the onboarding survey, one column each (`question_1`..`question_4`). */
  datatype UserFilters = UserFilters(question1: string, question2: string, question3: string, question4: string)

  datatype User = User(
    id: string,
    email: string,
    hasCompletedSegmentation: bool,
    filters: Option<UserFilters>,
    createdAt: string)

  datatype Event = Event(
    id: string,
    title: string,
    description: string,
    date: string,
    time: string,
    createdBy: string,
    createdAt: string)

  /** A product as the client holds it; `price` is the parsed number, modelled as a real. */
  datatype Product = Product(
    id: string,
    name: string,
    description: string,
    price: real,
    imageUrl: string,
    platform: string,
    platformId: string,
    userId: string,
    createdAt: string)
}
