# ubl-peppol in Dafny

A model of the core of `darvis/ubl-peppol`, a PHP library that builds UBL 2.1 invoices for the
PEPPOL network (PEPPOL BIS Billing 3.0, EN 16931), and of the validators that feed it.

- **Invoice builders.** The NL builder (`UblBis3Service`), the Belgian UBL.BE builder
  (`UblBeBis3Service`) and the example builder with fixed sample data (`UblService`) are each a
  class holding the root `Invoice` element, set once by `CreateDocument`. Every `Add*` method
  returns `Pass` or the exception PHP would throw and appends its block to the tree. The XML
  tree is a value (`Xml.Element`: qualified name, optional text, attributes, ordered children).
  - The NL builder checks its arguments, usually collecting every fault before throwing once.
    The blocks it writes are built by the functions of `Bis3Parties`, `Bis3Payment`,
    `Bis3Totals` and `Bis3Line`.
  - The BE builder checks only the header. Its `AddTaxTotal` is modelled as evidently
    intended: it removes every TaxTotal in a loop and inserts the new one before the first
    LegalMonetaryTotal. As written, its name lookups never match the builder's own prefixed
    elements, so each call appends another TaxTotal. That behaviour is modelled beside it (see
    Findings).
  - The header check shared by the two PEPPOL builders is `InvoiceHeader`. The IBAN check
    (ISO 13616, ISO 7064 MOD 97-10) is `Iban`.
- **Validators and code lists.**
  - `CompanyRegistration`: Dutch KVK, Belgian KBO with its mod-97 check, Luxembourg RCS,
    French SIREN/SIRET and German Handelsregister numbers.
  - `UblValidator`: unit codes, UNTDID 7143 classification schemes, tax categories and VAT
    numbers.
  - `UnitCodes`: the UN/ECE Recommendation 20/21 table.
  - `Codelists`: the code-list registry used by strict validation.
  - `ValidationResult`: the validation result record.
  - `ValidationTracking`: the strict-validation state a builder carries.
- **PHP semantics.** `Php` pins down the PHP built-ins the code relies on: `strtoupper`, `trim`,
  `empty()`, numeric strings (an exponent included), `(float)` casts, the text of a number,
  arithmetic operands and `number_format($x, 2, '.', '')`. `Dates` covers `Y-m-d` dates, the
  lenient reading of `DateTime::createFromFormat('Y-m-d', …)`, a time of day, and the clock the
  header compares against.

Each operation is modelled with the source's own branches, error messages and constants. The
contracts state what the source promises: checks that hold exactly when the input is
acceptable, blocks whose children and order are fixed, optional blocks that appear exactly when
their argument is truthy, `Country` last in every address, sums and round-trips. For the
builders they also state that a failing call leaves the tree unchanged (or, where the PHP
appends before it checks or throws halfway, exactly what it leaves behind).

## Model

| member | source | states |
|---|---|---|
| Codelists.CodeSetHas | src/Validation/CodelistRegistry.php:48-64 | every code supplied in an array-valued list is stored under its trimmed, upper-cased text |
| Codelists.CodeSetOnly | src/Validation/CodelistRegistry.php:48-64 | nothing else is stored: each stored code is the normalised text of some supplied code |
| Codelists.NormalizeCodeIdempotent | src/Validation/CodelistRegistry.php:66-69 | normalising a normalised code leaves it unchanged |
| Codelists.NormalizeCodeIgnores | src/Validation/CodelistRegistry.php:66-69 | upper-casing or trimming a code first does not change its normalised form |
| Codelists.CodelistRegistry.constructor | src/Validation/CodelistRegistry.php:9-12 | the registry holds exactly the normalised input lists |
| Codelists.CodelistRegistry.Has | src/Validation/CodelistRegistry.php:38-46 | a code is only ever found in a loaded list |
| Codelists.NormalizeCodes | src/Validation/CodelistRegistry.php:58-61 | the inner loop stores the normalised text of every code of one list and nothing else |
| Codelists.NormalizeLists | src/Validation/CodelistRegistry.php:48-64 | every array-valued list is kept under its own name with its normalised codes; a list given as anything else is skipped |
| Codelists.LoadedIff | src/Validation/CodelistRegistry.php:33-36 | a list is loaded exactly when the input gave it as a non-empty array |
| Codelists.SuppliedCodesFound | src/Validation/CodelistRegistry.php:38-64 | every supplied code of an array-valued list is found by has afterwards |
| Codelists.HasIff | src/Validation/CodelistRegistry.php:38-46 | has is true exactly when some supplied code of that list normalises to the same text as the query |
| Codelists.HasIgnoresCaseAndSpace | src/Validation/CodelistRegistry.php:38-69 | has gives the same answer for a query in any letter case and with surrounding whitespace |
| ValidationResult.WithVerdict | src/Validation/InvoiceValidationResult.php:18-23 | the constructor with only a verdict leaves errors, warnings and corrections empty |
| ValidationResult.GetCorrection | src/Validation/InvoiceValidationResult.php:76-79 | a stored non-null correction is returned; a missing key or a stored null gives null |
| ValidationResult.ToArray | src/Validation/InvoiceValidationResult.php:84-92 | the array has exactly the four snake_case keys, each holding its field |
| ValidationResult.ToArrayRoundTrip | src/Validation/InvoiceValidationResult.php:84-92 | the result can be rebuilt from its array: toArray loses nothing |
| ValidationResult.FromException | src/Validation/InvoiceValidationResult.php:97-105 | invalid, the message as the only error, no warnings and no corrections |
| ValidationResult.Success | src/Validation/InvoiceValidationResult.php:110-113 | valid, with no errors, warnings or corrections |
| ValidationResult.SuccessIsClean | src/Validation/InvoiceValidationResult.php:36-113 | a success has no errors or warnings, empty error and warning strings, and no correction for any key |
| ValidationResult.FromExceptionReports | src/Validation/InvoiceValidationResult.php:36-105 | a result from an exception has errors, no warnings, and its error string is the message for any separator |
| ValidationResult.ErrorsAsStringLength | src/Validation/InvoiceValidationResult.php:52-55 | the error string holds every error with one separator between each two |
| ValidationResult.ErrorsAsStringSnoc | src/Validation/InvoiceValidationResult.php:52-55 | one more error extends the error string by the separator and that error |
| ValidationTracking.Tracking.constructor | src/Validation/ValidationTrackingTrait.php:15-63 | the eight tracked code lists start empty, strict mode off, no registry |
| ValidationTracking.Tracking.EnableStrictCodelistValidation | src/Validation/ValidationTrackingTrait.php:83-94 | a supplied registry wins over a path; a truthy path loads the registry from its file and a load failure propagates with nothing changed; with neither the held registry stays; strict mode is on whenever nothing throws; the tracked codes are untouched |
| Dates.FormatYmd | src/UblBis3Service.php:161-163 | a four-digit year gives ten characters with dashes at positions 4 and 7 |
| Dates.ParseYmd | src/UblBis3Service.php:164-168 | text is accepted as a date only when it names a real calendar day (leap years included) with a four-digit year |
| Dates.FormatThenParse | src/UblBis3Service.php:164-168 | every valid date, formatted as Y-m-d, passes the createFromFormat round-trip check and reads back as itself |
| Dates.ParseThenFormat | src/UblBis3Service.php:164-168 | text that passes the check is exactly the canonical Y-m-d form of the date it reads as |
| Dates.CreateFromFormat | src/UblBis3Service.php:166 | createFromFormat reads one to four year digits, one or two month and day digits, dashes between; whatever it reads is a real calendar day, out-of-range fields rolled over |
| Dates.LeadingDigitsExact | src/UblBis3Service.php:166 | a numeric field ends where its digits end or at its maximum width |
| Dates.NormalizeValid | src/UblBis3Service.php:166 | a date inside the calendar is not changed by the roll-over |
| Dates.StrictAgrees | src/UblBis3Service.php:166-168 | on text that passes the format check the lenient reader gives the same date as the strict one |
| Dates.RoundTripIsStrict | src/UblBis3Service.php:166-168 | `$obj && $obj->format('Y-m-d') === $s` holds exactly when the strict reader accepts the text |
| Dates.FieldsRead | src/UblBis3Service.php:166 | three digit fields of allowed widths joined by dashes are read as their values, then rolled over |
| Dates.ShortFieldsRead | src/UblBis3Service.php:166 | "2024-1-5" is read as 5 January 2024, though it fails the format check |
| Dates.DayOverflowRolls | src/UblBis3Service.php:166 | a day past its month's end is read as the matching day of the next month ("2024-02-30" is 1 March) |
| Dates.LetterRefused | src/UblBis3Service.php:166 | text that does not start with a digit gives false |
| Dates.AddDays | src/UblBis3Service.php:240-243 | adding days to a valid date gives a valid date, strictly later when at least one day is added |
| Document.InvoiceRoot | src/UblBis3Service.php:52-75 | the root is an empty Invoice element carrying the cac and cbc namespace declarations, plus the default namespace attribute when it is set explicitly |
| Document.IfSet | src/UblBis3Service.php:755-758 | an optional child is written exactly when its argument is not null, with that text |
| Document.IfTruthy | src/UblBis3Service.php:911-921 | an optional child is written exactly when its argument is truthy, with that text |
| Document.ErrorListSnoc | src/UblBis3Service.php:199-203 | each further error adds one line "\n- " and the error to the message |
| Document.ErrorListOne | src/UblBis3Service.php:199-203 | a single error is reported as the header, then "\n- " and the error |
| IsoCountries.ListedHaveTwoCharacters | src/UblBis3Service.php:510-770 | every accepted VAT country prefix is two characters long |
| IsoCountries.VatPrefixesListed | src/UblBis3Service.php:510-770 | NL, BE, EL, XI and 1A are accepted prefixes |
| IsoCountries.UkNotListed | src/UblBis3Service.php:510-770 | UK and a one-letter prefix are rejected |
| Xml.NewElement | src/UblBis3Service.php:109-135 | createElement gives a childless element named prefix:name, with a text node exactly when a value is given, and the given attributes |
| Xml.AppendChild | src/UblBis3Service.php:92-97 | the child becomes the last child; the parent's name, text, attributes and earlier children are unchanged |
| Xml.AppendAll | src/UblBis3Service.php:212-273 | appending several children in turn puts them last, in order, and changes nothing else |
| Xml.RemoveFirstProgress | src/UblBeBis3Service.php:502-505 | removing one element named n lowers the count of such elements and does not change the tree left after removing them all |
| Xml.PruneLeavesNone | src/UblBeBis3Service.php:502-505 | after removing every element named n, none is left anywhere in the tree |
| Xml.PruneNoneIdentity | src/UblBeBis3Service.php:502-505 | removing the elements named n from a tree that holds none changes nothing |
| Xml.IndexOfName | src/UblBeBis3Service.php:512-519 | the position found holds the first element with that name, or is the end of the list when there is none |
| Xml.InsertAt | src/UblBeBis3Service.php:512-519 | inserting before position k puts the new element at k, with the elements before and after it unchanged |
| Php.Upper | src/Constants/UnitCodes.php:166 | strtoupper keeps the length and maps each ASCII lower-case letter to its upper-case form, leaving every other byte |
| Php.UpperIdempotent | src/Constants/UnitCodes.php:166 | upper-casing twice is upper-casing once |
| Php.Trim | src/Validation/UblValidator.php:46 | trim keeps no default whitespace or NUL at either end and never lengthens its input |
| Php.TrimIdempotent | src/Validation/UblValidator.php:46 | trimming twice is trimming once |
| Php.UpperTrimSwap | src/Validation/UblValidator.php:46 | trimming and upper-casing commute |
| Php.IntToString | src/UblBis3Service.php:1038 | the decimal text of a natural number is a non-empty digit string without leading zero that denotes the number |
| Php.NumberTextParses | src/UblBeBis3Service.php:528 | the text PHP gives a number that has a decimal form within 14 places reads back as that number |
| Php.NumberTextShortest | src/UblBeBis3Service.php:528 | that text has no "." for a whole number and never ends in a 0 after the "." |
| Php.NumberTextExamples | src/UblBeBis3Service.php:528 | 21.0 is written "21" and 1.5 is written "1.5" |
| Php.PointTextParses | src/UblBeBis3Service.php:528 | a digit string with a "." k places from the end reads back as its value shifted k places, and begins and ends with a digit |
| Php.ExponentNumeric | src/UblBis3Service.php:1292 | "1e3" is numeric and its (float) value is 1000 |
| Php.NegativeExponentNumeric | src/UblBis3Service.php:1304 | "2.5E-1" is numeric with value 0.25 |
| Php.DecimalParse | src/UblBis3Service.php:1292 | digits, a ".", and digits read as the integer part plus the fraction shifted by its length |
| Php.UnshiftShift | src/UblBis3Service.php:1292 | shifting a number k places and back gives the number again |
| Php.UnshiftedPow | src/UblBis3Service.php:1292 | shifting k places to the right divides by 10 to the power k, so "0.25" and "2.5E-1" denote a fraction over a power of ten |
| Php.ToFloat | src/UblBis3Service.php:1316 | the (float) cast keeps a number, reads a numeric string as its value, and turns null or a missing value into 0 |
| Php.ArithOperand | src/UblBeBis3Service.php:476 | an operand of `*` that is numeric has the value the (float) cast gives it |
| Php.FormatAmountParses | src/UblBis3Service.php:286-289 | the two-decimal rendering of an amount reads back as a numeric string equal to the amount rounded to cents |
| Php.FormatCentsParses | src/UblBis3Service.php:286-289 | the rendering of a signed number of cents, "-" included, reads back as that number divided by 100 |
| Php.JoinSnoc | src/Validation/InvoiceValidationResult.php:52-55 | implode of a list with one more part is the old result, the separator and the new part |
| Php.JoinLength | src/Validation/InvoiceValidationResult.php:52-55 | the imploded text holds every part and exactly one separator between each two |
| Php.AnchoredPlain | src/CompanyRegistrationService.php:98 | a `^…$` pattern matches a text without a final newline exactly when its body matches the whole text |
| UnitCodes.Lookup | src/Constants/UnitCodes.php:11-156 | looking a key up in the table finds a value exactly when the key occurs, and the value is the one of the last entry with that key |
| UnitCodes.GetDescription | src/Constants/UnitCodes.php:176-179 | getDescription returns a description exactly when isValid holds for the code |
| UnitCodes.KeysOf | src/Constants/UnitCodes.php:186-189 | the keys of the table, position by position |
| UnitCodes.Dedup | src/Constants/UnitCodes.php:186-189 | the key list of the array has no repeated key and holds exactly the keys written in the literal |
| UnitCodes.GetAll | src/Constants/UnitCodes.php:186-189 | getAll lists every key of CODES exactly once and nothing else |
| UnitCodes.ValidIgnoresCase | src/Constants/UnitCodes.php:164-167 | isValid gives the same answer for a code and its upper-case form |
| UnitCodes.ValidIffDescribed | src/Constants/UnitCodes.php:164-179 | a code is valid exactly when it has a description |
| UnitCodes.LookupAppend | src/Constants/UnitCodes.php:11-156 | in a table written in two parts, a key of the later part takes its value from there |
| UnitCodes.KeysAreUpperCase | src/Constants/UnitCodes.php:11-156 | every key of CODES is written without lower-case letters |
| UnitCodes.AllCodesValid | src/Constants/UnitCodes.php:164-189 | every code getAll returns is accepted by isValid |
| UnitCodes.CommonC62 | src/Constants/UnitCodes.php:13 | C62 is valid and described as "unit" |
| UnitCodes.CommonHurDayPce | src/Constants/UnitCodes.php:14-35 | HUR, DAY and PCE are valid codes |
| UnitCodes.L22Invalid | src/Constants/UnitCodes.php:11-156 | L22 is not a valid code |
| UblValidator.IsValidUnitCode | src/Validation/UblValidator.php:15-18 | isValidUnitCode agrees with UnitCodes::isValid and ignores letter case |
| UblValidator.NormalizeScheme | src/Validation/UblValidator.php:46 | the normalised scheme identifier has no whitespace at either end |
| UblValidator.NormalizeSchemeIdempotent | src/Validation/UblValidator.php:46 | normalising a scheme identifier twice is normalising it once |
| UblValidator.PaddedSchemesAccepted | src/Validation/UblValidator.php:26-50 | " std " is accepted as the UNTDID 7143 code STD and " cpv" as the PEPPOL code CPV |
| UblValidator.GetClassificationSchemeDescription | src/Validation/UblValidator.php:58-70 | the description is non-empty exactly when the upper-cased identifier is listed, and is then its listed name |
| UblValidator.DescriptionIgnoresCase | src/Validation/UblValidator.php:58-70 | the description lookup ignores letter case |
| UblValidator.DescriptionAndValidityDiffer | src/Validation/UblValidator.php:26-70 | GS1 has a name but is not an accepted scheme, and " std " is accepted but has no name |
| UblValidator.TaxCategoryCases | src/Validation/UblValidator.php:78-82 | lower-case categories are accepted and a category with a leading blank is not |
| UblValidator.IsValidVatNumber | src/Validation/UblValidator.php:90-112 | a VAT number is accepted exactly when it has at least three characters, a listed country prefix in any case, and only ASCII letters and digits after it |
| UblValidator.VatExamples | src/Validation/UblValidator.php:90-112 | NL123456789B01 and el123456789 are accepted; "NL 123" and US123 are not |
| Iban.RemoveSpaces | src/UblBis3Service.php:1024 | removing spaces never lengthens the text and leaves no space |
| Iban.CharCode | src/UblBis3Service.php:1036-1042 | a letter becomes the two digits of its code minus 55 (A=10 … Z=35); any other character stays itself |
| Iban.Mod97 | src/UblBis3Service.php:1045 | the digit-by-digit remainder is below 97 |
| Iban.Mod97IsRemainder | src/UblBis3Service.php:1045 | the digit-by-digit remainder equals the value of the digit string modulo 97 |
| Iban.IsValidIban | src/UblBis3Service.php:1021-1046 | isValidIban: false below four characters; otherwise the converted text is read as a bcmath number (optional sign, digits, optional "." and digits), true exactly when its integer part leaves remainder 1 modulo 97 and it has no minus sign, and a ValueError when it is not such a number |
| Iban.PlainDigitsCheck | src/UblBis3Service.php:1045 | when the converted text is plain digits, the result is whether their value leaves remainder 1 modulo 97 |
| Iban.MinusFirstRejected | src/UblBis3Service.php:1045 | an account whose fifth character is "-" converts to a negative number and is rejected without an error ("NL91-1234") |
| Iban.StrayCharacterRaises | src/UblBis3Service.php:1045 | a character that is no letter, digit, sign or "." always raises bcmod's ValueError |
| Iban.ConvertLoop | src/UblBis3Service.php:1035-1043 | the conversion loop produces every character's code in order |
| Iban.Remainder97 | src/UblBis3Service.php:1045 | the long division yields the digit-by-digit remainder |
| Iban.ConvertDigitsIff | src/UblBis3Service.php:1035-1045 | the converted text is all digits exactly when the upper-cased account holds only digits and letters |
| Iban.SpacesIgnored | src/UblBis3Service.php:1024 | spaces in the input never change the outcome |
| Iban.CaseIgnored | src/UblBis3Service.php:1024 | letter case never changes the outcome |
| Iban.SingleDigitErrorDetected | src/UblBis3Service.php:1045 | two digit strings that differ in exactly one position never leave the same remainder modulo 97 |
| CompanyRegistration.RemoveSeparators | src/CompanyRegistrationService.php:210 | removing whitespace, dots and dashes never lengthens the number and leaves none of them |
| CompanyRegistration.CleanNumber | src/CompanyRegistrationService.php:207-211 | a cleaned number holds no whitespace, dot or dash |
| CompanyRegistration.RemoveSeparatorsAppend | src/CompanyRegistrationService.php:210 | separators are dropped wherever they stand: cleaning distributes over concatenation |
| CompanyRegistration.RemoveSeparatorsNone | src/CompanyRegistrationService.php:210 | a number without separators is left unchanged |
| CompanyRegistration.CleanAlnum | src/CompanyRegistrationService.php:207-211 | a number made only of letters and digits is its own cleaned form |
| CompanyRegistration.HrBody | src/CompanyRegistrationService.php:171-176 | a German match captures HRA or HRB and one to six digits |
| CompanyRegistration.GetSupportedCountries | src/CompanyRegistrationService.php:216-255 | exactly NL, BE, LU, FR and DE are listed |
| CompanyRegistration.CleanIsPlain | src/CompanyRegistrationService.php:41 | a cleaned number never ends in a newline, so an anchored pattern matches it only as a whole |
| CompanyRegistration.DispatchNL | src/CompanyRegistrationService.php:14-20 | a country code that trims and upper-cases to NL applies the Dutch check to the cleaned number |
| CompanyRegistration.DispatchBE | src/CompanyRegistrationService.php:14-21 | the same for BE and the Belgian check |
| CompanyRegistration.DispatchLU | src/CompanyRegistrationService.php:14-22 | the same for LU and the Luxembourg check |
| CompanyRegistration.DispatchFR | src/CompanyRegistrationService.php:14-23 | the same for FR and the French check |
| CompanyRegistration.DispatchDE | src/CompanyRegistrationService.php:14-24 | the same for DE and the German check |
| CompanyRegistration.SupportedIffListed | src/CompanyRegistrationService.php:14-33 | the result carries the normalised country code; it has a country name exactly when getSupportedCountries lists the code, and the name is the listed one; any other code is rejected with the original number and "Unsupported country code: " and the code |
| CompanyRegistration.SupportedNames | src/CompanyRegistrationService.php:216-255 | the listed country names |
| CompanyRegistration.FormattedIffValid | src/CompanyRegistrationService.php:14-202 | every result has a formatted number exactly when it is valid, and an error exactly when it is not |
| CompanyRegistration.ValidNL | src/CompanyRegistrationService.php:38-53 | a Dutch KVK number is valid exactly when the cleaned number is eight digits; formatted is that number and the type KVK |
| CompanyRegistration.ValidBE | src/CompanyRegistrationService.php:58-90 | a Belgian number that is not ten digits gets the format error; ten digits are valid exactly when the last two are 97 minus the first eight modulo 97, with the checksum error otherwise |
| CompanyRegistration.ValidLU | src/CompanyRegistrationService.php:95-110 | a Luxembourg number is valid exactly when its upper-case form is one letter and six digits, and that form is the formatted number |
| CompanyRegistration.ValidFR | src/CompanyRegistrationService.php:115-162 | nine characters are a SIREN and fourteen a SIRET, each valid exactly when all digits; a SIRET splits into a nine-digit SIREN and a five-digit NIC; any other length is rejected without a type |
| CompanyRegistration.ValidDE | src/CompanyRegistrationService.php:167-202 | a German number is valid exactly when its upper-case form is HRA or HRB, an optional space and one to six digits; it is then formatted as the kind, one space and the digits |
| CompanyRegistration.DEWrites | src/CompanyRegistrationService.php:167-202 | the German check reports the kind, its name, the digits as registration number and the formatted text from the two captures |
| CompanyRegistration.HrMatchPlain | src/CompanyRegistrationService.php:176 | on text that does not end in a newline the German pattern matches only as a whole |
| CompanyRegistration.HrFormattedCleans | src/CompanyRegistrationService.php:180-190 | the formatted German number cleans to the kind followed by the digits |
| CompanyRegistration.FormattedRevalidates | src/CompanyRegistrationService.php:14-211 | the formatted number of a valid result, validated again for the same country, is valid with the same formatted number |
| CompanyRegistrationExamples.ExampleNL | src/CompanyRegistrationService.php:219-225 | the Dutch example 12345678 is valid and formatted as itself |
| CompanyRegistrationExamples.KboExample | src/CompanyRegistrationService.php:75-77 | 0681845662 is ten digits and passes the mod-97 check |
| CompanyRegistrationExamples.ExampleBE | src/CompanyRegistrationService.php:226-232 | the Belgian example 0681845662 is valid |
| CompanyRegistrationExamples.ExampleLU | src/CompanyRegistrationService.php:233-239 | the Luxembourg example B123456 is valid and formatted as itself |
| CompanyRegistrationExamples.ExampleSiren | src/CompanyRegistrationService.php:240-246 | the French example 732829320 is a valid SIREN |
| CompanyRegistrationExamples.ExampleSiret | src/CompanyRegistrationService.php:240-246 | the French example 73282932000074 is a valid SIRET with SIREN 732829320 and NIC 00074 |
| CompanyRegistrationExamples.ExampleDE | src/CompanyRegistrationService.php:247-253 | the German example "HRB 12345" is valid and formatted as itself |
| InvoiceHeader.HeaderElements | src/UblBis3Service.php:210-276 | the header writes CustomizationID, ProfileID, ID, IssueDate, DueDate, InvoiceTypeCode, DocumentCurrencyCode and AccountingCost in that order, with the checked number and the two dates as their texts |
| InvoiceHeader.NumberErrorsIff | src/UblBis3Service.php:151-157 | the invoice number raises no error exactly when its trimmed form is non-empty in PHP's sense and at most 35 bytes |
| InvoiceHeader.AcceptedIff | src/UblBis3Service.php:147-209 | compared by calendar day, the header is accepted exactly when the number is acceptable, the issue date is an object or a canonical date not after today, the due date an object or a canonical date, and the due day after the issue day |
| InvoiceHeader.IssueErrorsByDay | src/UblBis3Service.php:159-179 | the issue-date check raises nothing exactly when the date is an object or a canonical date not after today |
| InvoiceHeader.DueErrorsByDay | src/UblBis3Service.php:181-197 | the due-date check raises nothing exactly when the due date is an object or a canonical date and, for a due string, the due day comes after the issue day whenever the issue argument was read as a date at all (a leniently read issue text included) |
| InvoiceHeader.LenientIssueStillCompared | src/UblBis3Service.php:164-197 | an issue text that createFromFormat reads but the format check rejects gets the format fault, and a canonical due date before it gets the order fault as well |
| InvoiceHeader.AcceptedWritesDates | src/UblBis3Service.php:147-261 | an accepted header writes the trimmed number of 1 to 35 bytes and both dates in canonical Y-m-d form, the due day after the issue day |
| InvoiceHeader.ErrorsNameEachFault | src/UblBis3Service.php:149-204 | every missing number, malformed date and argument that is not a date is named in the one exception, whatever the other arguments are |
| InvoiceHeader.TodayRejectedAsWritten | src/UblBis3Service.php:164-175 | as written, an issue date equal to today is rejected as in the future once the clock is past midnight; by day it is accepted |
| InvoiceHeader.SameDayAcceptedAsWritten | src/UblBis3Service.php:181-209 | as written, equal issue and due dates in the past are accepted when the due date is read later, writing a due date equal to the issue date; by day they are rejected |
| InvoiceHeader.TrimCanonicalDate | src/UblBis3Service.php:164-166 | canonical date text is its own trim |
| UblBis3.BuyerReference | src/UblBis3Service.php:297-306 | the BuyerReference element carries the given reference, or BUYER_REF for null, and has no children |
| UblBis3.SupplierBlockCountryLast | src/UblBis3Service.php:439-444 | in a filled AccountingSupplierParty every PostalAddress has its Country as last child |
| UblBis3.UblBis3Service.constructor | src/UblBis3Service.php:39-44 | a new builder has no root element yet |
| UblBis3.UblBis3Service.CreateDocument | src/UblBis3Service.php:52-69 | the first call sets the Invoice root with its namespace declarations; a second call fails with "Document is already initialized" and leaves the root as it was |
| UblBis3.UblBis3Service.AppendToRoot | src/UblBis3Service.php:210-276 | appending elements one after another leaves the root with those elements added after its children, in order |
| UblBis3.UblBis3Service.AddInvoiceHeader | src/UblBis3Service.php:147-278 | a rejected header fails with the collected faults and writes nothing (an issue text that createFromFormat reads but the format check rejects is still compared with the due date); an accepted one appends the eight header elements with the BIS 3.0 CustomizationID; without a root it fails as not initialized |
| UblBis3.UblBis3Service.AddBuyerReference | src/UblBis3Service.php:297-306 | appends the BuyerReference element to the root, and nothing else changes |
| UblBis3.UblBis3Service.AddOrderReference | src/UblBis3Service.php:314-325 | appends an OrderReference holding the order number as its ID |
| UblBis3.UblBis3Service.AddAccountingSupplierParty | src/UblBis3Service.php:343-472 | the AccountingSupplierParty shell is appended before the checks, so a rejected call fails with every missing field and leaves the empty shell; an accepted call leaves the filled party in its place |
| UblBis3.UblBis3Service.AddAccountingCustomerParty | src/UblBis3Service.php:490-919 | every check runs before anything is written: a rejected call fails and writes nothing, an accepted one appends the customer party with the country the check settled on |
| UblBis3.UblBis3Service.AddDelivery | src/UblBis3Service.php:935-1013 | appends the Delivery block built from the arguments |
| UblBis3.UblBis3Service.AddPaymentMeans | src/UblBis3Service.php:1061-1137 | the payment means code must be digits, an account must pass isValidIban and a BIC its pattern, in that order; a fault writes nothing, otherwise the PaymentMeans block is appended |
| UblBis3.UblBis3Service.AddPaymentTerms | src/UblBis3Service.php:1149-1162 | an empty or missing note fails and writes nothing; otherwise PaymentTerms with the note is appended |
| UblBis3.UblBis3Service.AddAllowanceCharge | src/UblBis3Service.php:1178-1242 | a rejected allowance or charge writes nothing; an accepted one appends its AllowanceCharge block |
| UblBis3.UblBis3Service.AddTaxTotal | src/UblBis3Service.php:1261-1384 | every tax entry is checked before anything is written; an accepted non-empty list appends one TaxTotal whose amount is the sum of the entries' tax amounts |
| UblBis3.UblBis3Service.AddLegalMonetaryTotal | src/UblBis3Service.php:1399-1451 | a missing or non-numeric amount or a bad currency writes nothing; otherwise the LegalMonetaryTotal with every amount is appended |
| UblBis3.UblBis3Service.AddInvoiceLine | src/UblBis3Service.php:1481-1632 | a rejected line writes nothing; an accepted line appends the InvoiceLine built from its checked fields |
| Bis3Line.FirstWhere | src/UblBis3Service.php:1504-1508 | the loop over a field list reports nothing exactly when no field fails its test, and otherwise the message of a field that fails |
| Bis3Line.ReadLine | src/UblBis3Service.php:1484-1538 | a line passes its checks with its defaults merged in and is then read into typed values, or fails with the message of the first failed check |
| Bis3Line.AccountingCostBlock | src/UblBis3Service.php:1566-1568 | AccountingCost is written exactly when the field is not empty |
| Bis3Line.OrderLineBlock | src/UblBis3Service.php:1571-1575 | OrderLineReference is written exactly when order_line_id is not empty |
| Bis3Line.StandardItemBlock | src/UblBis3Service.php:1586-1592 | StandardItemIdentification is written exactly when standard_item_id is not empty |
| Bis3Line.OriginCountryBlock | src/UblBis3Service.php:1595-1599 | OriginCountry is written exactly when origin_country is not empty |
| Bis3Line.ClassificationBlock | src/UblBis3Service.php:1602-1608 | CommodityClassification is written exactly when item_type_code is not empty |
| Bis3Line.FieldsAcceptedIff | src/UblBis3Service.php:1492-1522 | the field checks pass exactly when every required field is set and not '' and every numeric field that is set is numeric in the sense of `is_numeric` (sign, decimals and exponent included), the defaults counting as given |
| Bis3Line.FieldsRejectedNames | src/UblBis3Service.php:1492-1522 | a failed field check names a required field that is missing or a numeric field that is not numeric |
| Bis3Line.LineAcceptedIff | src/UblBis3Service.php:1484-1538 | a line is accepted exactly when its fields pass, its unit code is valid and a non-empty classification scheme is known; every rejection is an InvalidArgumentException |
| Bis3Line.UnitCodeRejected | src/UblBis3Service.php:1525-1530 | with its fields in order, an unknown unit code is reported with the code |
| Bis3Line.SchemeRejected | src/UblBis3Service.php:1533-1538 | with its fields and unit code in order, an unknown non-empty classification scheme is reported with the scheme |
| Bis3Line.LineDefaultsApply | src/UblBis3Service.php:1484-1490 | a line without tax and scheme fields gets category S at 21 percent under VAT and the scheme STD |
| Bis3Line.InvoiceLineNames | src/UblBis3Service.php:1541-1626 | an InvoiceLine holds ID, InvoicedQuantity and LineExtensionAmount, then AccountingCost and OrderLineReference exactly when given, then Item and Price last |
| Bis3Line.InvoiceLineShape | src/UblBis3Service.php:1545-1626 | the quantity carries the line's unit code, the line amount and the price carry its currency, and Item and Price close the line |
| Bis3Line.ItemNames | src/UblBis3Service.php:1578-1619 | an Item holds Description and Name, then StandardItemIdentification, OriginCountry and CommodityClassification exactly when given, and ClassifiedTaxCategory last |
| Bis3Line.ItemTaxCategory | src/UblBis3Service.php:1611-1619 | the item's tax category carries the line's category, its rate rounded to cents and its tax scheme |
| Bis3Line.LineAmountsRead | src/UblBis3Service.php:1548-1563 | the quantity, line amount and price are written rounded to cents and read back as such |
| Bis3Parties.PostalAddressCountryLast | src/UblBis3Service.php:424-444 | a PostalAddress ends with its Country, which holds the upper-cased country code |
| Bis3Parties.SupplierAcceptedIff | src/UblBis3Service.php:364-402 | the seller is accepted exactly when every field is filled once trimmed (not blank and not "0") and the trimmed country code has two characters |
| Bis3Parties.SupplierCountryLast | src/UblBis3Service.php:404-470 | the filled seller block keeps Country last in its address |
| Bis3Parties.Prefix2 | src/UblBis3Service.php:767 | the first two characters, or the whole text when shorter |
| Bis3Parties.MissingFieldsEmptyIff | src/UblBis3Service.php:774-790 | the required-field loop reports nothing exactly when every value is filled once trimmed |
| Bis3Parties.MissingFieldsNamed | src/UblBis3Service.php:786-790 | every blank field is named "<label> is required" |
| Bis3Parties.VatPrefixIsCountry | src/UblBis3Service.php:510-770 | an accepted buyer with a VAT number has a listed country code as its upper-cased prefix, and that code is the country used |
| Bis3Parties.CustomerAcceptedIff | src/UblBis3Service.php:506-812 | the buyer is accepted exactly when the endpoint is filled, a given VAT number has a listed prefix, every required field is filled, the country code has two characters, and a given e-mail and phone pass their checks |
| Bis3Parties.DutchVatMapsScheme | src/UblBis3Service.php:767-824 | a Dutch VAT number turns the scheme 0210 into 0106, whatever country code was passed |
| Bis3Parties.ContactIff | src/UblBis3Service.php:898-916 | Contact is written exactly when some contact value is truthy, with one child per truthy value, name first and e-mail last |
| Bis3Parties.CustomerCountryLast | src/UblBis3Service.php:814-917 | the buyer block keeps Country last in its address |
| Bis3Parties.DeliveryBlocks | src/UblBis3Service.php:935-1013 | a Delivery starts with its date, has a DeliveryLocation exactly when an id, street or city is given and a DeliveryParty exactly when a name is given; a postal code or country alone is not written |
| Bis3Payment.PaymentAccepted | src/UblBis3Service.php:1072-1084 | an accepted payment has a code that starts with digits, an account of at least four characters whose rearranged, converted text is a well-formed bcmath number with no leading minus whose integer part leaves remainder 1 modulo 97 by the digit-by-digit division, and a BIC of 8 or 11 characters (one more with PCRE's final newline) whose first six are letters |
| Bis3Payment.PaymentRejected | src/UblBis3Service.php:1072-1084 | a non-numeric code, an account failing the IBAN test and a bad BIC are rejected with their own message, in that order; an empty account is always rejected |
| Bis3Payment.PaymentMeansBlocks | src/UblBis3Service.php:1087-1129 | PaymentMeans starts with the code and its name, has PaymentID exactly when given and PayeeFinancialAccount exactly when an account is given |
| Bis3Payment.PayeeAccountBlocks | src/UblBis3Service.php:1105-1127 | the account block holds the IBAN first, the account name exactly when given and the FinancialInstitutionBranch with the BIC exactly when a BIC is given |
| Bis3Payment.PaymentTerms | src/UblBis3Service.php:1149-1162 | a null, "" or "0" note is refused with its message; any other note is written as the PaymentTerms Note |
| Bis3Payment.AllowanceAcceptedIff | src/UblBis3Service.php:1187-1201 | an allowance or charge is accepted exactly when the amount is not negative, the reason not empty, the rate within 0 to 100 and the currency three characters |
| Bis3Payment.AllowanceWritten | src/UblBis3Service.php:1204-1239 | an accepted allowance writes the indicator, the reason and the amount rounded to cents in its currency, within half a cent of the argument and not negative; TaxCategory with the category follows exactly when the rate is positive |
| Bis3Totals.FirstMissing | src/UblBis3Service.php:1285-1289 | the key loop reports nothing exactly when every required key is present, and otherwise the message of a missing key |
| Bis3Totals.TaxEntryAcceptedIff | src/UblBis3Service.php:1276-1316 | a tax entry is accepted exactly when its amounts are non-negative numbers or numeric strings (an exponent included), its category and scheme non-blank strings, its rate a number from 0 to 100 and its currency a three-character string; the values read are those the (float) cast gives |
| Bis3Totals.ReadAll | src/UblBis3Service.php:1271-1317 | every entry is read, in input order |
| Bis3Totals.FirstFailure | src/UblBis3Service.php:1271-1317 | the loop stops at the first entry that fails, after entries that all passed |
| Bis3Totals.Values | src/UblBis3Service.php:1271-1317 | the values of the accepted entries, in order |
| Bis3Totals.CheckTaxes | src/UblBis3Service.php:1263-1317 | the validation loop gives the result of the whole-list check and, on success, the sum of the entries' tax amounts |
| Bis3Totals.TaxesCheckFails | src/UblBis3Service.php:1271-1314 | when entry k is the first to fail, the list is rejected with "Tax entry #k+1: " and that entry's message |
| Bis3Totals.TaxesCheckPasses | src/UblBis3Service.php:1271-1317 | a non-empty list of accepted entries yields their values |
| Bis3Totals.SumTaxSnoc | src/UblBis3Service.php:1316 | adding an entry adds its tax amount to the total |
| Bis3Totals.FirstFailureIs | src/UblBis3Service.php:1271-1317 | the first failure is the entry before which every entry passed |
| Bis3Totals.TaxSubtotals | src/UblBis3Service.php:1334-1381 | one TaxSubtotal per entry, in input order |
| Bis3Totals.TaxesAcceptedIff | src/UblBis3Service.php:1263-1317 | a tax list is accepted exactly when it is not empty and every entry is accepted; the entries are then read in order and each is valid |
| Bis3Totals.TaxesRejectedNamesEntry | src/UblBis3Service.php:1271-1314 | a rejected list names its first faulty entry by its position counted from 1 |
| Bis3Totals.SumTaxBounds | src/UblBis3Service.php:1316 | the total of valid entries is not negative and at least each entry's tax amount |
| Bis3Totals.SumTaxAppend | src/UblBis3Service.php:1316 | the total of two lists joined is the sum of their totals |
| Bis3Totals.TaxTotalShape | src/UblBis3Service.php:1320-1381 | the TaxTotal holds the total rounded to cents in the first entry's currency, then exactly one subtotal per entry in input order |
| Bis3Totals.TaxSubtotalAmounts | src/UblBis3Service.php:1338-1361 | a subtotal writes the taxable amount and the tax amount in the entry's currency, each rounded to cents, then the TaxCategory |
| Bis3Totals.FirstNonNumeric | src/UblBis3Service.php:1410-1414 | the first of the five amounts that is missing or not numeric, after amounts that all are |
| Bis3Totals.MonetaryValues | src/UblBis3Service.php:1422-1438 | the five amounts as numbers, in element order |
| Bis3Totals.CheckAmounts | src/UblBis3Service.php:1402-1419 | the loop over the five amounts and the currency check give the result of the whole check |
| Bis3Totals.MonetaryAcceptedIff | src/UblBis3Service.php:1402-1419 | the totals are accepted exactly when all five amounts are numeric in the sense of `is_numeric` (an exponent included) and the currency has three characters |
| Bis3Totals.MonetaryWritten | src/UblBis3Service.php:1428-1448 | each amount is written in order under its own element, in the given currency, and reads back as its value rounded to cents |
| UblBeBis3.RemoveEvery | src/UblBeBis3Service.php:502-505 | the removal loop ends with no element of the given name anywhere in the tree, and the result is the old tree with exactly those subtrees pruned |
| UblBeBis3.SumTaxAmounts | src/UblBeBis3Service.php:507-510 | the running total is the sum of the (float) tax amounts of all entries |
| UblBeBis3.BuildSubtotals | src/UblBeBis3Service.php:522-537 | one TaxSubtotal per entry, in the entries' order |
| UblBeBis3.MapEach | src/UblBeBis3Service.php:522-537 | a foreach producing one element per entry keeps count and order |
| UblBeBis3.UblBeBis3Service.constructor | src/UblBeBis3Service.php:39-44 | a new builder has no root element yet |
| UblBeBis3.UblBeBis3Service.CreateDocument | src/UblBeBis3Service.php:52-69 | a second call fails with the already-initialized error and changes nothing; the first sets the Invoice root |
| UblBeBis3.UblBeBis3Service.AddInvoiceHeader | src/UblBeBis3Service.php:147-278 | the number and dates are checked as for the PEPPOL builder (a leniently read issue text still compared with the due date), a failure changes nothing, and on success the header elements with the UBL.BE customization id are appended |
| UblBeBis3.UblBeBis3Service.AddBuyerReference | src/UblBeBis3Service.php:297-306 | without a root createElement throws and nothing changes; otherwise the BuyerReference (BUYER_REF for null) is appended |
| UblBeBis3.UblBeBis3Service.AddOrderReference | src/UblBeBis3Service.php:314-325 | without a root createElement throws and nothing changes; otherwise the OrderReference with its ID is appended |
| UblBeBis3.UblBeBis3Service.AddAdditionalDocumentReference | src/UblBeBis3Service.php:334-344 | reading the unset root fails and changes nothing; otherwise the reference block is appended |
| UblBeBis3.UblBeBis3Service.AddAccountingSupplierParty | src/UblBeBis3Service.php:699-747 | reading the unset root fails and changes nothing; otherwise the seller block is appended unchecked |
| UblBeBis3.UblBeBis3Service.AddAccountingCustomerParty | src/UblBeBis3Service.php:641-697 | reading the unset root fails and changes nothing; otherwise the buyer block is appended unchecked |
| UblBeBis3.UblBeBis3Service.AddDelivery | src/UblBeBis3Service.php:605-639 | reading the unset root fails and changes nothing; otherwise the Delivery block is appended |
| UblBeBis3.UblBeBis3Service.AddPaymentMeans | src/UblBeBis3Service.php:578-603 | reading the unset root fails and changes nothing; otherwise the PaymentMeans block is appended unchecked |
| UblBeBis3.UblBeBis3Service.AddPaymentTerms | src/UblBeBis3Service.php:564-576 | reading the unset root fails and changes nothing; otherwise PaymentTerms is appended, with or without a note |
| UblBeBis3.UblBeBis3Service.AddAllowanceCharge | src/UblBeBis3Service.php:542-562 | reading the unset root fails and changes nothing; otherwise the AllowanceCharge is appended unchecked |
| UblBeBis3.UblBeBis3Service.AddLegalMonetaryTotal | src/UblBeBis3Service.php:486-497 | reading the unset root fails and changes nothing; otherwise the five amounts are appended in the given currency |
| UblBeBis3.UblBeBis3Service.AddTaxTotal | src/UblBeBis3Service.php:499-540 | as evidently intended (see Findings): every earlier TaxTotal is removed, the new one is inserted before the first LegalMonetaryTotal (or last); afterwards the tree holds exactly one TaxTotal and is otherwise unchanged |
| UblBeBis3.UblBeBis3Service.AddInvoiceLine | src/UblBeBis3Service.php:445-484 | a line whose tax operands are non-numeric fails with a TypeError and leaves the partial line on the root; otherwise the full line with its computed tax is appended |
| BeBis3Blocks.FormatAmountExamples | src/UblBeBis3Service.php:286-289 | 100, 100.5 and 100.123 render as "100.00", "100.50" and "100.12" |
| BeBis3Blocks.AdditionalDocumentReference | src/UblBeBis3Service.php:334-344 | the reference holds its ID first, and a DocumentDescription exactly when the type is truthy |
| BeBis3Blocks.AddressShape | src/UblBeBis3Service.php:726-735 | an address lists street, the additional line exactly when truthy, city, postal zone and ends with the country as given |
| BeBis3Blocks.AddressCountryLast | src/UblBeBis3Service.php:726-735 | every address the builder writes has Country as its last child |
| BeBis3Blocks.PartyHeadShape | src/UblBeBis3Service.php:712-723 | a party starts with EndpointID (carrying its scheme), PartyIdentification and PartyName |
| BeBis3Blocks.LegalEntity | src/UblBeBis3Service.php:677-681 | the legal entity carries the registration name, and a CompanyID exactly when the registration number is truthy |
| BeBis3Blocks.SupplierShape | src/UblBeBis3Service.php:699-747 | the seller party has its six blocks in order, the VAT number under the VAT scheme and the name as registration name |
| BeBis3Blocks.SupplierCountryLast | src/UblBeBis3Service.php:699-747 | the seller block keeps Country last in every address |
| BeBis3Blocks.CustomerShape | src/UblBeBis3Service.php:641-697 | the buyer party has five blocks, then Contact exactly when a contact value is truthy |
| BeBis3Blocks.CustomerCountryLast | src/UblBeBis3Service.php:641-697 | the buyer block keeps Country last in every address |
| BeBis3Blocks.DeliveryShape | src/UblBeBis3Service.php:605-639 | the delivery has a date and a location whose address ends with the country, and a DeliveryParty exactly when the party name is truthy |
| BeBis3Blocks.PaymentMeansShape | src/UblBeBis3Service.php:578-603 | the code carries its name attribute exactly when the name is truthy; the account holds the IBAN, and its Name and branch exactly when given |
| BeBis3Blocks.PaymentTerms | src/UblBeBis3Service.php:564-576 | PaymentTerms is empty exactly when the note is not truthy, and otherwise holds that Note alone |
| BeBis3Blocks.AllowanceChargeShape | src/UblBeBis3Service.php:542-562 | the allowance or charge always has its tax category, whatever the rate, with the VAT scheme last |
| BeBis3Blocks.AllowanceChargeAmounts | src/UblBeBis3Service.php:550-557 | the amount and the rate read back as the given values rounded to cents |
| BeBis3Blocks.TaxAmountSumAppend | src/UblBeBis3Service.php:507-510 | the sum over two runs of entries is the sum of the two sums |
| BeBis3Blocks.HeaderCurrency | src/UblBeBis3Service.php:520 | the header currency is the first entry's currency, or EUR when there is no entry or it has none |
| BeBis3Blocks.TaxSubtotals | src/UblBeBis3Service.php:522-537 | one subtotal per entry, each built from its own entry |
| BeBis3Blocks.TaxTotalHeader | src/UblBeBis3Service.php:520 | the TaxTotal's amount reads back as the total rounded to cents, in the header currency |
| BeBis3Blocks.TaxTotalEntries | src/UblBeBis3Service.php:520-537 | after the header amount come exactly the entries' subtotals, in order |
| BeBis3Blocks.CategoryNamed | src/UblBeBis3Service.php:527-536 | category S is named "Standard rated"; otherwise a Name appears exactly when the given name is truthy; the scheme is last |
| BeBis3Blocks.NoNestedTaxTotal | src/UblBeBis3Service.php:514-537 | the new TaxTotal holds no TaxTotal below it |
| BeBis3Blocks.AsWrittenAppends | src/UblBeBis3Service.php:499-519 | as written, on a tree of prefixed names both lookups match nothing: the new TaxTotal is appended last and the earlier ones stay |
| BeBis3Blocks.SecondCallDuplicates | src/UblBeBis3Service.php:499-519 | as written, two calls on a tree without a TaxTotal leave two TaxTotals |
| BeBis3Blocks.AppendIndex | src/UblBeBis3Service.php:512 | after appending an element of another name, the lookup still finds no match |
| BeBis3Blocks.TaxTotalReplaced | src/UblBeBis3Service.php:502-519 | after removal and insertion there is exactly one TaxTotal, placed directly before the first LegalMonetaryTotal or last, and pruning TaxTotals gives back the pruned old tree |
| BeBis3Blocks.InsertCount | src/UblBeBis3Service.php:512-519 | inserting one TaxTotal into a tree with none leaves exactly one |
| BeBis3Blocks.InsertPrune | src/UblBeBis3Service.php:512-519 | the insertion is the only change: pruning it gives the tree back |
| BeBis3Blocks.PruneNamed | src/UblBeBis3Service.php:504 | removing a TaxTotal removes its whole subtree |
| BeBis3Blocks.LineTaxIff | src/UblBeBis3Service.php:474 | the line tax is computed exactly when both operands are usable by PHP arithmetic, and then equals amount times rate over 100 with the (float) values; numeric operands always work |
| BeBis3Blocks.OperandIsFloat | src/UblBeBis3Service.php:474 | a usable arithmetic operand has the value the (float) cast gives |
| BeBis3Blocks.OpeningNames | src/UblBeBis3Service.php:447-471 | a line opens with ID, quantity and amount, then AccountingCost and OrderLineReference exactly when truthy, then Item |
| BeBis3Blocks.LineNames | src/UblBeBis3Service.php:445-484 | a full line ends with its TaxTotal and Price after the opening |
| BeBis3Blocks.LineTaxWritten | src/UblBeBis3Service.php:473-481 | the line's TaxAmount reads back as the tax rounded to cents in the line currency, and the Price has a BaseQuantity of 1 in the line unit |
| BeBis3Blocks.PartialLineIsPrefix | src/UblBeBis3Service.php:473-474 | a line cut by the TypeError keeps the whole opening and an empty TaxTotal, and has no Price |
| UblService.Rewrap | src/UblService.php:140-142 | a caught RuntimeException is rethrown as a RuntimeException, and only then; other exceptions pass through |
| UblService.RewrapKeepsMessage | src/UblService.php:140-142 | the rethrown message is the Dutch prefix followed by the whole original message |
| UblService.DateString | src/UblService.php:157-164 | a DateTime argument is turned into its Y-m-d text; a text argument is kept as given |
| UblService.DueDayCases | src/UblService.php:191-213 | an empty due date becomes the issue date plus 30 days, a readable one is kept, an unreadable one becomes today plus 30 days; the defaults lie after the day they count from |
| UblService.DueTextReadsBack | src/UblService.php:191-217 | the DueDate text is always a well-formed Y-m-d date that reads back as the day it was made from |
| UblService.HeaderShape | src/UblService.php:166-229 | the header has its eight elements in order with the number, the issue date as given, the normalised due date, type code 380 and currency EUR |
| UblService.SamplePartyCountryLast | src/UblService.php:331-336 | a sample party whose parts keep Country last keeps it last too, with the address as its fourth part |
| UblService.ExampleSupplierCountryLast | src/UblService.php:287-362 | the sample seller's address ends with its country, GB |
| UblService.ExampleCustomerCountryLast | src/UblService.php:369-457 | the sample buyer's address ends with its country, SE |
| UblService.PaymentMeans | src/UblService.php:522-553 | PaymentMeansCode carries the payment type as its text (none for null) and the name "Credit transfer" |
| UblService.StandardItemBlock | src/UblService.php:810-817 | the standard identification is present exactly when its argument is truthy |
| UblService.OriginCountryBlock | src/UblService.php:819-826 | the origin country is present exactly when its argument is truthy |
| UblService.OrderLineBlock | src/UblService.php:791-799 | the order line reference is present exactly when its argument is truthy |
| UblService.LineNames | src/UblService.php:754-859 | a line holds its head, then AccountingCost and OrderLineReference exactly when truthy, then Item and Price |
| UblService.LineEndsWithPrice | src/UblService.php:801-859 | the Price in euros comes last, right after the Item |
| UblService.ItemNames | src/UblService.php:801-850 | the Item holds the identification and origin country exactly when truthy, and ends with the classification and the tax category |
| UblService.ItemEndsWithCategory | src/UblService.php:828-850 | every Item ends with the SRV classification and the line's VAT tax category |
| UblService.ExampleSectionOrder | src/UblService.php:120-145 | after the header the example writes the buyer reference, both parties and delivery, then payment, allowance and totals, then the two lines |
| UblService.LinesNames | src/UblService.php:697-734 | the sample lines are two InvoiceLines |
| UblService.PartiesNames | src/UblService.php:129-133 | the party section is buyer reference, seller, buyer and delivery, in that order |
| UblService.SettlementNames | src/UblService.php:134-138 | the settlement section is payment means, terms, allowance, tax total and monetary total, in that order |
| UblService.ExampleLinesAccountingCost | src/UblService.php:697-734 | the first sample line has an AccountingCost and the second, passed null, has none |
| UblService.UblService.constructor | src/UblService.php:32-37 | a new builder has no root element yet |
| UblService.UblService.CreateDocument | src/UblService.php:45-63 | a second call fails with the Dutch already-initialized message and changes nothing; the first sets the Invoice root |
| UblService.UblService.AddInvoiceHeader | src/UblService.php:155-233 | without a root createElement throws and nothing changes; otherwise the header is appended unvalidated, with the due date normalised or defaulted |
| UblService.UblService.Append | src/UblService.php:85-112 | without a root createElement throws and nothing changes; otherwise the block is appended |
| UblService.UblService.AddBuyerReference | src/UblService.php:252-261 | the BuyerReference (BUYER_REF for null) is appended, or the root error returned with nothing changed |
| UblService.UblService.AddOrderReference | src/UblService.php:269-280 | the OrderReference is appended, or the root error returned with nothing changed |
| UblService.UblService.AddAccountingSupplierParty | src/UblService.php:287-362 | the sample seller is appended, or the root error returned with nothing changed |
| UblService.UblService.AddAccountingCustomerParty | src/UblService.php:369-457 | the sample buyer is appended, or the root error returned with nothing changed |
| UblService.UblService.AddDelivery | src/UblService.php:464-514 | the sample delivery is appended, or the root error returned with nothing changed |
| UblService.UblService.AddPaymentMeans | src/UblService.php:522-553 | the payment means for the given type is appended, or the root error returned with nothing changed |
| UblService.UblService.AddPaymentTerms | src/UblService.php:560-571 | the sample payment terms are appended, or the root error returned with nothing changed |
| UblService.UblService.AddAllowanceCharge | src/UblService.php:578-613 | the sample charge is appended, or the root error returned with nothing changed |
| UblService.UblService.AddTaxTotal | src/UblService.php:620-656 | the sample tax total is appended, or the root error returned with nothing changed |
| UblService.UblService.AddLegalMonetaryTotal | src/UblService.php:663-690 | the sample monetary total is appended, or the root error returned with nothing changed |
| UblService.UblService.AddInvoiceLine | src/UblService.php:754-859 | the line built from its arguments is appended, or the root error returned with nothing changed |
| UblService.UblService.AddInvoiceLines | src/UblService.php:697-734 | both sample lines are appended in order, or the root error returned with nothing changed |
| UblService.UblService.AddExampleParties | src/UblService.php:129-133 | with a root, the four party-section blocks are appended in order |
| UblService.UblService.AddExampleSettlement | src/UblService.php:134-138 | with a root, the five settlement blocks are appended in order |
| UblService.UblService.CreateExampleInvoice | src/UblService.php:120-145 | on a fresh builder the document is the root with header, parties, settlement and lines in order; on a second call the already-initialized error comes back with the prefix and nothing changes |

## Left out

- XML serialisation (`generateXml`, `saveXML`, pretty-printing, namespace text): the model is the element tree, not its bytes.
- `CodelistRegistry::fromJsonFile`: file I/O and JSON decoding. The registry is built from an already-decoded map, and in `enableStrictCodelistValidation` the outcome of loading a path is a parameter (`fromFile`).
- The clock. `new DateTime('today')` and `new DateTime()` become the `today` of a `Clock` parameter, with the time of day at which each date argument is read.
- Free-form date reading in the example builder (`new DateTime($text)`): it is a `parse` parameter, and `+30 days` is `Dates.AddDays` on the proleptic Gregorian calendar.
- Php.NumberText: numbers that need more than 14 decimal places are written to two decimals, and PHP's exponent form ("1.0E+15") for large or tiny values is not modelled. The numbers the builders pass as text are codes and rates, which stay within that range.
- Php.ParseNumeric, Php.ToFloat: an exponent is read exactly; overflow to infinity and the rounding of long mantissas are floating point (next line).
- Dates.CreateFromFormat: a text whose month or day rolls back before year 0 ("0-0-5") gives None, where PHP gives a date in year -1, and a year of more than four digits is refused as PHP's `Y` reads at most four. The time of day is a separate parameter of the header.
- Floating point. Amounts are exact reals, and `number_format($x, 2, '.', '')` rounds half away from zero to cents; IEEE binary rounding is not modelled.
- The text of PHP's `TypeError` for a non-numeric operand: the model keeps one fixed message.
- `filter_var(..., FILTER_VALIDATE_EMAIL)`: an `isEmail` parameter of the NL customer checks, not a model of RFC 5322.
- Date arguments that are neither a string nor a `DateTime` are one case, `NotADate`, whatever their PHP type.
- UblBeBis3.UblBeBis3Service.AddTaxTotal: modelled as evidently intended, with lookups that match the `cac:` elements, so every TaxTotal anywhere in the tree is removed, line-level ones included. As written, `getElementsByTagName('TaxTotal')` and `('LegalMonetaryTotal')` match none of the builder's elements, which `createElement` names `cac:TaxTotal` without a namespace. That behaviour is `BeBis3Blocks.TaxTotalPlacedAsWritten`; see Findings.
- The BE `addTaxTotal` looks the LegalMonetaryTotal up anywhere in the tree but inserts before it in the root. The model looks only among the root's children, where the builder puts it.
- The `!isset($this->dom)` branch of `createElement`: the constructor always sets the DOM, so the branch is unreachable and has no counterpart.
- Arguments that reach no element: the channel code and due date of the BE `addPaymentMeans`, the discount arguments of the BE `addPaymentTerms`, and the payment channel code and payment due date of the NL `addPaymentMeans`, whose use is commented out.
- The credit-note API (`createCreditNoteDocument`, `addCreditNoteHeader`, `addBillingReference`, `addCreditNoteLine`) and `UblNlBis3Service`: they are used by the tests but are not part of this model.
- `PeppolService`, `ViesService` and the framework glue (Laravel models, console command, service provider, configuration): network and framework code, not part of this model.
- The repository's example scripts (`CompleteInvoiceExample.php` and the others): browser output and file writes, not part of this model.
- UblBis3.UblBis3Service.AddInvoiceHeader: the dates are compared by calendar day, the evidently intended rule. The comparison as written, with the time of day, is modelled beside it (`InvoiceHeader.AsWritten`); see Findings.
- UblBeBis3.UblBeBis3Service.AddInvoiceHeader: compares by calendar day for the same reason as the NL header.
- UblService.UblService.AddExampleParties, UblService.UblService.AddExampleSettlement, UblBeBis3.MapEach and Codelists.NormalizeCodes: groupings of source loops and call runs. They require what their callers guarantee, and their rows cite the lines they group.

## Findings

| source | as written | input that shows it | evidently intended | confidence | as-written member | corrected member |
|---|---|---|---|---|---|---|
| src/UblBis3Service.php:164-175 | the parsed issue date keeps the current time of day and is compared with midnight of today | issue date equal to today's date, read at any time after 00:00:00 | an issue date of today is accepted ("in the past or today") | not executed | InvoiceHeader.TodayRejectedAsWritten | InvoiceHeader.AcceptedIff |
| src/UblBis3Service.php:181-209 | the due date is compared with the issue date as DateTime values that carry the times at which each was read | the same past date as issue and due date: the due date is read a moment later, so `$dueDateObj <= $issueDateObj` is false | a due date on the issue day is rejected ("must be after the invoice date") | not executed | InvoiceHeader.SameDayAcceptedAsWritten | InvoiceHeader.AcceptedIff |
| src/UblBeBis3Service.php:499-519 | TaxTotal and LegalMonetaryTotal are looked up by unprefixed name, but the builder creates them with `createElement('cac:TaxTotal')`, without a namespace, so the lookups match nothing | two calls of `addTaxTotal` on one invoice: the first TaxTotal is not removed and both stay, the second after the LegalMonetaryTotal | each call replaces the previous TaxTotal and places it before the LegalMonetaryTotal | not executed | BeBis3Blocks.SecondCallDuplicates | BeBis3Blocks.TaxTotalReplaced |
