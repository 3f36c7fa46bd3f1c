/**
  Insurer branding and the certificate-of-insurance document
  (src/lib/certificate-utils.ts).

  The branding table is keyed by the upper-cased insurer name. The certificate
  is one template literal; here it is the list of its pieces (fixed text and
  interpolated values, in the order they occur), written one after another.
  The clock (`toLocaleDateString`, `getFullYear`) and the two `Math.random()`
  calls of the security token are parameters: the issue date as text, the
  year, and the base-36 text of each random number.
 */
module CertificateUtils {
  import opened JsText

  datatype CompanyBranding = CompanyBranding(name: string, primaryColor: string, secondaryColor: string)

  const White: string := "#FFFFFF"

  /** The `COMPANIES` table. */
  const Companies: map<string, CompanyBranding> := map[
    "MAPFRE" := CompanyBranding("MAPFRE", "#E30613", White),
    "ALLIANZ" := CompanyBranding("Allianz", "#003781", White),
    "AXA" := CompanyBranding("AXA", "#00008F", White),
    "OCCIDENT" := CompanyBranding("Occident", "#E6007E", White),
    "GENERIC" := CompanyBranding("Seguros Global", "#3b82f6", White)
  ]

  /** `COMPANIES.GENERIC`, the fallback entry. */
  const Generic: CompanyBranding := Companies["GENERIC"]

  /** The primary colours the table knows. */
  const Palette: set<string> := {"#E30613", "#003781", "#00008F", "#E6007E", "#3b82f6"}

  /** `!companyName`: absent (undefined or null) or the empty string. */
  predicate IsFalsyName(companyName: Option<string>) {
    companyName == None || companyName == Some("")
  }

  /**
    `getCompanyBranding`: the table entry of the upper-cased name; the generic
    entry for a missing name; the generic colours under the name as typed for
    a name the table does not know.
   */
  function GetCompanyBranding(companyName: Option<string>): (b: CompanyBranding)
    ensures b.secondaryColor == White
    ensures b.primaryColor in Palette
    ensures b in Companies.Values || (companyName.Some? && b.name == companyName.value && b.primaryColor == Generic.primaryColor)
  {
    if IsFalsyName(companyName) then
      Companies["GENERIC"]
    else
      var key := ToUpper(companyName.value);
      if key in Companies then
        Companies[key]
      else
        Generic.(name := companyName.value)
  }

  /** A recognised name is one whose upper-cased form is a key of the table. */
  predicate IsKnownName(s: string) {
    s != "" && ToUpper(s) in Companies
  }

  lemma MissingNameIsGeneric(companyName: Option<string>)
    requires IsFalsyName(companyName)
    ensures GetCompanyBranding(companyName) == Generic
    ensures GetCompanyBranding(companyName).name == "Seguros Global"
  {
  }

  lemma KnownNameGivesEntry(s: string)
    requires IsKnownName(s)
    ensures GetCompanyBranding(Some(s)) == Companies[ToUpper(s)]
  {
  }

  lemma UnknownNameKeepsText(s: string)
    requires s != "" && !IsKnownName(s)
    ensures GetCompanyBranding(Some(s)).name == s
    ensures GetCompanyBranding(Some(s)).primaryColor == Generic.primaryColor
    ensures GetCompanyBranding(Some(s)).secondaryColor == Generic.secondaryColor
  {
  }

  lemma AllianzInLowerCase()
    ensures GetCompanyBranding(Some("allianz")) == CompanyBranding("Allianz", "#003781", White)
  {
    assert ToUpper("allianz") == "ALLIANZ";
  }

  /**
    Lookup ignores case: a name and its upper-cased form are recognised
    together, get the same colours, and, when recognised, the same entry.
   */
  lemma LookupIgnoresCase(s: string)
    requires s != ""
    ensures IsKnownName(s) <==> IsKnownName(ToUpper(s))
    ensures GetCompanyBranding(Some(s)).primaryColor == GetCompanyBranding(Some(ToUpper(s))).primaryColor
    ensures GetCompanyBranding(Some(s)).secondaryColor == GetCompanyBranding(Some(ToUpper(s))).secondaryColor
    ensures IsKnownName(s) ==> GetCompanyBranding(Some(s)) == GetCompanyBranding(Some(ToUpper(s)))
  {
    ToUpperIdempotent(s);
  }

  /**
    The displayed name of an unknown insurer is the text as typed, so the
    result for a name and for its upper-cased form can differ.
   */
  lemma UnknownNameIsCaseSensitive()
    ensures GetCompanyBranding(Some("Acme")) != GetCompanyBranding(Some("ACME"))
  {
    assert ToUpper("Acme") == "ACME";
    assert ToUpper("ACME") == "ACME";
  }

  /** The name is not trimmed: a padded known name falls back to the generic colours. */
  lemma PaddedNameIsNotRecognised()
    ensures GetCompanyBranding(Some(" MAPFRE")) == CompanyBranding(" MAPFRE", Generic.primaryColor, White)
  {
    assert ToUpper(" MAPFRE") == " MAPFRE";
  }

  // ---------------------------------------------------------------------
  // Security token

  predicate IsBase36Digit(c: char) {
    IsDigit(c) || IsLowerAscii(c)
  }

  /**
    The text `Number.prototype.toString(36)` gives for a value of
    `Math.random()`: "0", or "0." followed by base-36 digits.
   */
  predicate IsBase36Fraction(repr: string) {
    && 1 <= |repr|
    && repr[0] == '0'
    && (|repr| == 1 || (repr[1] == '.' && forall i :: 2 <= i < |repr| ==> IsBase36Digit(repr[i])))
  }

  /** A token group: at most 8 upper-case base-36 characters. */
  predicate IsTokenGroup(g: string) {
    |g| <= 8 && forall i :: 0 <= i < |g| ==> IsDigit(g[i]) || IsUpperAscii(g[i])
  }

  /** `.toString(36).substring(2, 10).toUpperCase()` of one draw. */
  function TokenHalf(repr: string): (h: string)
    ensures IsBase36Fraction(repr) ==> IsTokenGroup(h)
  {
    var digits := Substring(repr, 2, 10);
    assert IsBase36Fraction(repr) ==> forall i :: 0 <= i < |digits| ==> IsBase36Digit(digits[i]) by {
      if IsBase36Fraction(repr) {
        if |repr| >= 2 {
          var b := if |repr| < 10 then |repr| else 10;
          assert Clamp(2, |repr|) == 2 && Clamp(10, |repr|) == b;
          assert forall i :: 0 <= i < |digits| ==> digits[i] == repr[2 + i];
        } else {
          assert digits == [];
        }
      }
    }
    ToUpper(digits)
  }

  /** Two token groups joined by "-". */
  predicate IsSecurityToken(t: string) {
    exists i | 0 <= i < |t| :: t[i] == '-' && IsTokenGroup(t[..i]) && IsTokenGroup(t[i + 1..])
  }

  function SecurityToken(repr1: string, repr2: string): (t: string)
    ensures IsBase36Fraction(repr1) && IsBase36Fraction(repr2) ==> IsSecurityToken(t)
  {
    var h1, h2 := TokenHalf(repr1), TokenHalf(repr2);
    var t := h1 + TokenSeparator + h2;
    assert t[..|h1|] == h1 && t[|h1|] == '-' && t[|h1| + 1..] == h2;
    t
  }

  // ---------------------------------------------------------------------
  // Certificate document

  /** The `user` argument is untyped: either property may be missing or `null`. */
  datatype CertificateUser = CertificateUser(name: JsValue, email: JsValue)

  /** The pieces of the template literal, in order: the issue date and the token are the only ones that vary between calls. */
  function CertificatePieces(user: CertificateUser, company: CompanyBranding, date: string,
                             year: nat, token: string): seq<string>
  {
    PiecesBeforeDate(user, company) + ([date] + (PiecesBeforeToken(user, company) + ([token] + PiecesAfterToken(company, year))))
  }

  function PiecesBeforeDate(user: CertificateUser, company: CompanyBranding): seq<string> {
    [OpenToTitle, TemplateText(user.name),
     TitleToTopBarColor, company.primaryColor,
     TopBarToLogoColor, company.primaryColor,
     LogoToSectionTitleColor, company.primaryColor,
     SectionTitleToStampBorder, company.primaryColor,
     StampBorderToStampColor, company.primaryColor,
     StampColorToLogoText, ToUpper(company.name),
     LogoTextToIssueDate]
  }

  function PiecesBeforeToken(user: CertificateUser, company: CompanyBranding): seq<string> {
    [IssueDateToHolderName, TemplateText(user.name),
     HolderNameToEmail, TemplateText(user.email),
     EmailToIssuer, company.name,
     IssuerToToken]
  }

  function PiecesAfterToken(company: CompanyBranding, year: nat): seq<string> {
    [TokenToYear, NatToDecimal(year),
     YearToFooterName, company.name,
     FooterToClose]
  }

  /**
    `generateCertificateHTML`: the document names the policyholder, the
    insurer (also in upper case), its colour, the issue date, the token and
    the year.
   */
  function GenerateCertificateHTML(user: CertificateUser, company: CompanyBranding, date: string,
                                   year: nat, tokenRepr1: string, tokenRepr2: string): (html: string)
    ensures Contains(html, TemplateText(user.name)) && Contains(html, TemplateText(user.email))
    ensures Contains(html, company.name) && Contains(html, ToUpper(company.name))
    ensures Contains(html, company.primaryColor)
    ensures Contains(html, date)
    ensures Contains(html, SecurityToken(tokenRepr1, tokenRepr2))
    ensures Contains(html, NatToDecimal(year))
  {
    var token := SecurityToken(tokenRepr1, tokenRepr2);
    var html := Concat(CertificatePieces(user, company, date, year, token));
    FrontPieceOccurs(user, company, date, year, token, 1);
    FrontPieceOccurs(user, company, date, year, token, 3);
    FrontPieceOccurs(user, company, date, year, token, 13);
    DateAndTokenOccur(user, company, date, year, token);
    MiddlePieceOccurs(user, company, date, year, token, 3);
    MiddlePieceOccurs(user, company, date, year, token, 5);
    BackPieceOccurs(user, company, date, year, token, 1);
    html
  }

  /** Missing user data does not stop the document: it is written as "undefined" or "null". */
  lemma IncompleteUserStillRenders(company: CompanyBranding, date: string, year: nat, a: string, b: string)
    ensures Contains(GenerateCertificateHTML(CertificateUser(Undefined, Null), company, date, year, a, b), "undefined")
    ensures Contains(GenerateCertificateHTML(CertificateUser(Undefined, Null), company, date, year, a, b), "null")
  {
    assert TemplateText(Undefined) == "undefined" && TemplateText(Null) == "null";
  }

  lemma FrontPieceOccurs(user: CertificateUser, company: CompanyBranding, date: string, year: nat, token: string, k: nat)
    requires k < |PiecesBeforeDate(user, company)|
    ensures Contains(Concat(CertificatePieces(user, company, date, year, token)), PiecesBeforeDate(user, company)[k])
  {
    var front := PiecesBeforeDate(user, company);
    var rest := date + (Concat(PiecesBeforeToken(user, company)) + (token + Concat(PiecesAfterToken(company, year))));
    DocumentLayout(user, company, year, date, token);
    PieceOccurs(front, k);
    ContainsInLeft(Concat(front), rest, front[k]);
  }

  lemma MiddlePieceOccurs(user: CertificateUser, company: CompanyBranding, date: string, year: nat, token: string, k: nat)
    requires k < |PiecesBeforeToken(user, company)|
    ensures Contains(Concat(CertificatePieces(user, company, date, year, token)), PiecesBeforeToken(user, company)[k])
  {
    var front, middle := Concat(PiecesBeforeDate(user, company)), PiecesBeforeToken(user, company);
    var afterToken := token + Concat(PiecesAfterToken(company, year));
    DocumentLayout(user, company, year, date, token);
    PieceOccurs(middle, k);
    ContainsInLeft(Concat(middle), afterToken, middle[k]);
    ContainsInRight(date, Concat(middle) + afterToken, middle[k]);
    ContainsInRight(front, date + (Concat(middle) + afterToken), middle[k]);
  }

  lemma BackPieceOccurs(user: CertificateUser, company: CompanyBranding, date: string, year: nat, token: string, k: nat)
    requires k < |PiecesAfterToken(company, year)|
    ensures Contains(Concat(CertificatePieces(user, company, date, year, token)), PiecesAfterToken(company, year)[k])
  {
    var front, middle := Concat(PiecesBeforeDate(user, company)), Concat(PiecesBeforeToken(user, company));
    var back := PiecesAfterToken(company, year);
    DocumentLayout(user, company, year, date, token);
    PieceOccurs(back, k);
    ContainsInRight(token, Concat(back), back[k]);
    ContainsInRight(middle, token + Concat(back), back[k]);
    ContainsInRight(date, middle + (token + Concat(back)), back[k]);
    ContainsInRight(front, date + (middle + (token + Concat(back))), back[k]);
  }

  lemma DateAndTokenOccur(user: CertificateUser, company: CompanyBranding, date: string, year: nat, token: string)
    ensures Contains(Concat(CertificatePieces(user, company, date, year, token)), date)
    ensures Contains(Concat(CertificatePieces(user, company, date, year, token)), token)
  {
    var front, middle := Concat(PiecesBeforeDate(user, company)), Concat(PiecesBeforeToken(user, company));
    var back := Concat(PiecesAfterToken(company, year));
    DocumentLayout(user, company, year, date, token);
    ContainsPrefix(date, middle + (token + back));
    ContainsInRight(front, date + (middle + (token + back)), date);
    ContainsPrefix(token, back);
    ContainsInRight(middle, token + back, token);
    ContainsInRight(date, middle + (token + back), token);
    ContainsInRight(front, date + (middle + (token + back)), token);
  }

  /**
    For the same user and insurer, two documents differ only in the issue
    date and the security token: they share the text before the date, the
    text between date and token, and the text after the token.
   */
  lemma DocumentsDifferOnlyInDateAndToken(user: CertificateUser, company: CompanyBranding, year: nat,
                                          date1: string, a1: string, b1: string,
                                          date2: string, a2: string, b2: string)
    ensures exists before, between, after ::
      && GenerateCertificateHTML(user, company, date1, year, a1, b1) == before + (date1 + (between + (SecurityToken(a1, b1) + after)))
      && GenerateCertificateHTML(user, company, date2, year, a2, b2) == before + (date2 + (between + (SecurityToken(a2, b2) + after)))
  {
    var before := Concat(PiecesBeforeDate(user, company));
    var between := Concat(PiecesBeforeToken(user, company));
    var after := Concat(PiecesAfterToken(company, year));
    DocumentLayout(user, company, year, date1, SecurityToken(a1, b1));
    DocumentLayout(user, company, year, date2, SecurityToken(a2, b2));
  }

  lemma DocumentLayout(user: CertificateUser, company: CompanyBranding, year: nat, date: string, token: string)
    ensures Concat(CertificatePieces(user, company, date, year, token))
         == Concat(PiecesBeforeDate(user, company)) + (date + (Concat(PiecesBeforeToken(user, company)) + (token + Concat(PiecesAfterToken(company, year)))))
  {
    var after := PiecesAfterToken(company, year);
    var between := PiecesBeforeToken(user, company);
    ConcatAppend(PiecesBeforeDate(user, company), [date] + (between + ([token] + after)));
    ConcatCons(date, between + ([token] + after));
    ConcatAppend(between, [token] + after);
    ConcatCons(token, after);
  }

  // ---------------------------------------------------------------------
  // The fixed text of the template, between the interpolated values.

  const OpenToTitle: string := @"
    <!DOCTYPE html>
    <html lang=""en"">
    <head>
        <meta charset=""UTF-8"">
        <title>Insurance Certificate - "

  const TitleToTopBarColor: string := @"</title>
        <style>
            @import url('https://fonts.googleapis.com/css2?family=Inter:wght@400;600;700&display=swap');
            body { font-family: 'Inter', sans-serif; color: #1f2937; line-height: 1.6; background-color: #f3f4f6; margin: 0; padding: 0; }
            .container { 
                max-width: 800px; 
                margin: 40px auto; 
                background: white;
                padding: 60px; 
                box-shadow: 0 20px 25px -5px rgba(0, 0, 0, 0.1), 0 10px 10px -5px rgba(0, 0, 0, 0.04);
                position: relative;
                border-radius: 8px;
                overflow: hidden;
            }
            .top-bar {
                position: absolute;
                top: 0;
                left: 0;
                right: 0;
                height: 8px;
                background-color: "

  const TopBarToLogoColor: string := @";
            }
            .header { 
                display: flex; 
                justify-content: space-between; 
                align-items: center; 
                margin-bottom: 60px;
                padding-bottom: 20px;
                border-bottom: 1px solid #e5e7eb;
            }
            .logo { font-size: 28px; font-weight: 800; color: "

  const LogoToSectionTitleColor: string := @"; letter-spacing: -0.025em; }
            .date-box { text-align: right; }
            .date-label { font-size: 10px; color: #6b7280; text-transform: uppercase; font-weight: 600; }
            .date-value { font-weight: 600; font-size: 14px; }
            
            .certificate-title { 
                text-align: center; 
                font-size: 32px; 
                font-weight: 800;
                margin-bottom: 10px; 
                color: #111827;
                letter-spacing: -0.025em;
            }
            .certificate-subtitle {
                text-align: center;
                color: #6b7280;
                margin-bottom: 50px;
                font-size: 16px;
            }

            .section { margin-bottom: 40px; }
            .section-title { 
                font-size: 12px;
                font-weight: 700; 
                text-transform: uppercase; 
                letter-spacing: 0.05em;
                margin-bottom: 15px; 
                color: "

  const SectionTitleToStampBorder: string := @";
                display: flex;
                align-items: center;
            }
            .section-title::after {
                content: """";
                flex: 1;
                height: 1px;
                background: #e5e7eb;
                margin-left: 15px;
            }

            .grid { display: grid; grid-template-columns: 1fr 1fr; gap: 30px; }
            .item-label { color: #6b7280; font-size: 11px; text-transform: uppercase; font-weight: 600; margin-bottom: 4px; }
            .item-value { font-weight: 600; font-size: 16px; color: #111827; }
            
            .badge {
                display: inline-flex;
                align-items: center;
                padding: 4px 12px;
                border-radius: 9999px;
                font-size: 12px;
                font-weight: 600;
                background-color: #ecfdf5;
                color: #065f46;
            }

            .footer { 
                margin-top: 60px; 
                padding-top: 30px;
                border-top: 1px solid #e5e7eb; 
                font-size: 12px; 
                color: #9ca3af; 
                text-align: center; 
            }
            .stamp { 
                position: absolute; 
                bottom: 120px; 
                right: 60px; 
                width: 140px; 
                height: 140px; 
                border: 2px dashed "

  const StampBorderToStampColor: string := @"; 
                border-radius: 50%; 
                display: flex; 
                flex-direction: column;
                align-items: center; 
                justify-content: center; 
                transform: rotate(-15deg); 
                color: "

  const StampColorToLogoText: string := @"; 
                font-weight: 800; 
                opacity: 0.15; 
                font-size: 14px;
                text-align: center;
                pointer-events: none; 
            }
        </style>
    </head>
    <body>
        <div class=""container"">
            <div class=""top-bar""></div>
            <div class=""header"">
                <div class=""logo"">"

  const LogoTextToIssueDate: string := @"</div>
                <div class=""date-box"">
                    <div class=""date-label"">Issue Date</div>
                    <div class=""date-value"">"

  const IssueDateToHolderName: string := @"</div>
                </div>
            </div>
            
            <h1 class=""certificate-title"">Certificate of Insurance</h1>
            <p class=""certificate-subtitle"">Official coverage verification and policy status document</p>
            
            <div class=""section"">
                <div class=""section-title"">Insurant Information</div>
                <div class=""grid"">
                    <div>
                        <div class=""item-label"">Policyholder Name</div>
                        <div class=""item-value"">"

  const HolderNameToEmail: string := @"</div>
                    </div>
                    <div>
                        <div class=""item-label"">Verified Email</div>
                        <div class=""item-value"">"

  const EmailToIssuer: string := @"</div>
                    </div>
                </div>
            </div>

            <div class=""section"">
                <div class=""section-title"">Policy Coverage Details</div>
                <div class=""grid"">
                    <div>
                        <div class=""item-label"">Coverage Plan</div>
                        <div class=""item-value"">Standard Plus (Commercial & Private)</div>
                    </div>
                    <div>
                        <div class=""item-label"">Policy Status</div>
                        <div><span class=""badge"">ACTIVE / VERIFIED</span></div>
                    </div>
                </div>
                <p style=""font-size: 14px; color: #4b5563; margin-top: 20px;"">
                    This document serves as proof that the individual named above is protected under our comprehensive insurance network, 
                    covering liabilities, property damage, and personal security according to the terms of the main contract.
                </p>
            </div>

            <div class=""section"">
                <div class=""section-title"">Provider Confirmation</div>
                <div style=""background-color: #f9fafb; padding: 20px; border-radius: 6px; border: 1px solid #e5e7eb;"">
                    <p style=""margin: 0; font-size: 14px; font-weight: 600;"">Issued by: "

  const IssuerToToken: string := @" Insurance Group, S.A.</p>
                    <p style=""margin: 5px 0 0 0; font-size: 13px; color: #6b7280;"">Security Token: "

  const TokenSeparator: string := @"-"

  const TokenToYear: string := @"</p>
                </div>
            </div>

            <div class=""stamp"">
                VERIFIED<br>SYSTEM<br>GENUINE
            </div>

            <div class=""footer"">
                &copy; "

  const YearToFooterName: string := @" "

  const FooterToClose: string := @" Insurance Group. All rights reserved.<br>
                This is an encrypted electronic document and does not require a physical signature.
            </div>
        </div>
    </body>
    </html>
    "
}
