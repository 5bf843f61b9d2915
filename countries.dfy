/** The country table of the client (constants/countries.ts), in its own order. */
module Countries {

  datatype Country = Country(name: string, nationality: string, phoneCode: string, code: string)

  const Table: seq<Country> := [
    Country("United States", "American", "+1", "US"),
    Country("United Kingdom", "British", "+44", "GB"),
    Country("Canada", "Canadian", "+1", "CA"),
    Country("Australia", "Australian", "+61", "AU"),
    Country("New Zealand", "New Zealander", "+64", "NZ"),
    Country("Singapore", "Singaporean", "+65", "SG"),
    Country("Malaysia", "Malaysian", "+60", "MY"),
    Country("Indonesia", "Indonesian", "+62", "ID"),
    Country("Vietnam", "Vietnamese", "+84", "VN"),
    Country("Thailand", "Thai", "+66", "TH"),
    Country("Philippines", "Filipino", "+63", "PH"),
    Country("India", "Indian", "+91", "IN"),
    Country("China", "Chinese", "+86", "CN"),
    Country("Japan", "Japanese", "+81", "JP"),
    Country("South Korea", "South Korean", "+82", "KR"),
    Country("France", "French", "+33", "FR"),
    Country("Germany", "German", "+49", "DE"),
    Country("Italy", "Italian", "+39", "IT"),
    Country("Spain", "Spanish", "+34", "ES"),
    Country("Netherlands", "Dutch", "+31", "NL"),
    Country("Belgium", "Belgian", "+32", "BE"),
    Country("Switzerland", "Swiss", "+41", "CH"),
    Country("Sweden", "Swedish", "+46", "SE"),
    Country("Norway", "Norwegian", "+47", "NO"),
    Country("Denmark", "Danish", "+45", "DK")
  ]
}
